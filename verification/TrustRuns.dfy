/** What the CA overlay keeps: applies are all or nothing, removal never touches
    another owner's layer, and the original store survives every history. */
module TrustRuns {
  import opened Text
  import opened Naming
  import opened Trust

  predicate SameRest(w: World, next: World) {
    next.gens == w.gens && next.store == w.store && next.inventory == w.inventory
  }

  ghost predicate SameStacks(w: World, next: World) {
    forall s :: Stack(next, s) == Stack(w, s)
  }

  /** Mounted generations exist, so a new one is mounted nowhere. */
  ghost predicate Known(w: World) {
    forall s, k :: 0 <= k < |Stack(w, s)| && Stack(w, s)[k].Owned? ==> Stack(w, s)[k].gen < |w.gens|
  }

  // ---- planning ----

  predicate Good(g: Generation, target: string, managed: set<string>) {
    g.target == target && g.files.Keys == managed && Extends(g.base, managed, g.live, g.files)
  }

  predicate Prepared(w: World, m: Mount, managed: set<string>, first: nat) {
    first <= m.gen < |w.gens| && |Stack(w, m.spot)| < LAYER_LIMIT && Good(w.gens[m.gen], m.spot.1, managed)
  }

  predicate OnePerTarget(plans: seq<Mount>) {
    forall a, b :: a in plans && b in plans && a.spot.1 == b.spot.1 ==> a.gen == b.gen
  }

  /** One fresh generation per target. */
  predicate Planned(w: World, plans: seq<Mount>, managed: set<string>, first: nat) {
    (forall m :: m in plans ==> Prepared(w, m, managed, first)) && OnePerTarget(plans)
  }

  predicate Cached(w: World, prepared: map<string, nat>, plans: seq<Mount>, managed: set<string>, first: nat) {
    && (forall m :: m in plans ==> m.spot.1 in prepared && prepared[m.spot.1] == m.gen)
    && (forall t :: t in prepared ==> first <= prepared[t] < |w.gens| && Good(w.gens[prepared[t]], t, managed))
  }

  lemma PlanMore(w: World, next: World, managed: set<string>, s: Spot, prepared: map<string, nat>, gen: nat, plans: seq<Mount>, first: nat)
    requires Cached(w, prepared, plans, managed, first) && Planned(w, plans, managed, first)
    requires next.stacks == w.stacks && w.gens <= next.gens && |Stack(w, s)| < LAYER_LIMIT
    requires first <= gen < |next.gens| && Good(next.gens[gen], s.1, managed)
    requires s.1 in prepared ==> prepared[s.1] == gen
    ensures Cached(next, prepared[s.1 := gen], plans + [Mount(s, gen)], managed, first)
    ensures Planned(next, plans + [Mount(s, gen)], managed, first)
  {
    hide Good;
    forall m | m in plans ensures Prepared(next, m, managed, first) { assert Prepared(w, m, managed, first); }
    assert forall m :: m in plans + [Mount(s, gen)] ==> m in plans || m == Mount(s, gen);
  }

  lemma NewGenerationGood(tape: Tape, w: World, s: Spot, certs: seq<Cert>)
    ensures var (next, exit) := NewGeneration(tape, w, s, certs);
      && next.stacks == w.stacks && next.store == w.store && next.inventory == w.inventory && next.record == w.record
      && w.gens <= next.gens && (exit.Done? || exit.Failed? || exit.Crashed?)
      && (exit.Done? ==> |next.gens| == |w.gens| + 1 && Good(next.gens[|w.gens|], s.1, Ids(certs)))
  {
    hide Extends;
    var orders, base := tape(w.clock).orders, BaseOf(w, s);
    if ValidCerts(certs) && Named(orders, base, certs, |certs|).Some? {
      NamedExtends(orders, base, certs, |certs|);
      assert certs[..|certs|] == certs;
      var names := Named(orders, base, certs, |certs|).value;
      assert names.files.Keys == Ids(certs) by { ExtendsKeys(base, Ids(certs), names.live, names.files); }
    }
  }

  lemma ExtendsKeys(base: Dir, managed: set<string>, live: Dir, files: map<string, string>)
    requires Extends(base, managed, live, files)
    ensures files.Keys == managed
  {
  }

  lemma CachedGood(w: World, prepared: map<string, nat>, plans: seq<Mount>, managed: set<string>, first: nat, t: string)
    requires Cached(w, prepared, plans, managed, first)
    ensures t in prepared ==> first <= prepared[t] < |w.gens| && Good(w.gens[prepared[t]], t, managed)
  {
  }

  lemma {:induction false} PlanTrustPlans(tape: Tape, w: World, certs: seq<Cert>, spots: seq<Spot>,
                                          prepared: map<string, nat>, plans: seq<Mount>, first: nat)
    requires Cached(w, prepared, plans, Ids(certs), first) && Planned(w, plans, Ids(certs), first) && first <= |w.gens|
    ensures var (next, exit, all) := PlanTrust(tape, w, certs, spots, prepared, plans);
      && next.stacks == w.stacks && next.store == w.store && next.inventory == w.inventory && next.record == w.record
      && w.gens <= next.gens
      && (exit.Done? || exit.Failed? || exit.Crashed?)
      && (exit.Done? ==>
           && Planned(next, all, Ids(certs), first)
           && |all| == |plans| + |spots| && all[..|plans|] == plans
           && forall i :: 0 <= i < |spots| ==> all[|plans| + i].spot == spots[i])
    decreases |spots|
  {
    hide Good, NewGeneration, Planned, Cached;
    if spots != [] {
      var s := spots[0];
      if |Stack(w, s)| < LAYER_LIMIT && (Stack(w, s) == [] || OwnedTop(w, s)) {
        NewGenerationGood(tape, w, s, certs);
        var (w1, made) := if s.1 in prepared then (w, Done) else NewGeneration(tape, w, s, certs);
        if made.Done? {
          var gen := if s.1 in prepared then prepared[s.1] else |w.gens|;
          assert s.1 in prepared ==> prepared[s.1 := gen] == prepared && first <= gen < |w.gens| && Good(w.gens[gen], s.1, Ids(certs)) by { CachedGood(w, prepared, plans, Ids(certs), first, s.1); }
          var more := plans + [Mount(s, gen)];
          PlanMore(w, w1, Ids(certs), s, prepared, gen, plans, first);
          PlanTrustPlans(tape, w1, certs, spots[1..], prepared[s.1 := gen], more, first);
          var (next, exit, all) := PlanTrust(tape, w1, certs, spots[1..], prepared[s.1 := gen], more);
          assert PlanTrust(tape, w, certs, spots, prepared, plans) == (next, exit, all);
          if exit.Done? {
            assert all[..|plans|] == all[..|more|][..|plans|] == plans;
            assert all[|plans|] == all[..|more|][|plans|] == Mount(s, gen);
            forall i | 0 <= i < |spots| ensures all[|plans| + i].spot == spots[i] {
              if i > 0 { assert all[|more| + (i - 1)].spot == spots[1..][i - 1]; }
            }
          }
        }
      }
    }
  }

  // ---- mounting and rolling back ----

  /** Each stack is as before, or carries the planned layer on top of that. */
  ghost predicate Between(before: World, after: World, plans: seq<Mount>) {
    forall s :: Stack(after, s) == Stack(before, s)
      || exists m :: m in plans && m.spot == s && Stack(after, s) == Stack(before, s) + [Owned(m.gen)]
  }

  ghost predicate Fresh(before: World, plans: seq<Mount>) {
    && (forall m, s :: m in plans ==> Owned(m.gen) !in Stack(before, s))
    && OnePerTarget(plans)
  }

  lemma OnTopMeans(before: World, after: World, plans: seq<Mount>, m: Mount)
    requires Between(before, after, plans) && Fresh(before, plans) && m in plans
    ensures OnTop(after, m) ==> Stack(after, m.spot) == Stack(before, m.spot) + [Owned(m.gen)]
    ensures !OnTop(after, m) ==> Stack(after, m.spot) == Stack(before, m.spot)
  {
    var was, now := Stack(before, m.spot), Stack(after, m.spot);
    if now == was {
      assert now != [] ==> now[|now| - 1] in was;
    } else {
      var p :| p in plans && p.spot == m.spot && now == was + [Owned(p.gen)];
      assert p.gen == m.gen;
    }
  }

  lemma PushBetween(tape: Tape, before: World, w: World, plans: seq<Mount>, m: Mount)
    requires Between(before, w, plans) && Fresh(before, plans) && m in plans && !OnTop(w, m)
    ensures Between(before, Push(tape, w, m).0, plans)
  {
    OnTopMeans(before, w, plans, m);
    var next := Push(tape, w, m).0;
    forall s ensures Stack(next, s) == Stack(before, s)
      || exists p :: p in plans && p.spot == s && Stack(next, s) == Stack(before, s) + [Owned(p.gen)]
    {
      if s != m.spot { assert Stack(next, s) == Stack(w, s); }
    }
  }

  lemma PopBetween(tape: Tape, before: World, w: World, plans: seq<Mount>, m: Mount)
    requires Between(before, w, plans) && Fresh(before, plans) && m in plans && OnTop(w, m)
    ensures var (next, exit) := Pop(tape, w, m.spot);
      && Between(before, next, plans) && SameRest(w, next) && next.record == w.record
      && (exit.Done? ==> Stack(next, m.spot) == Stack(before, m.spot))
      && (exit.Done? || exit.Failed? || exit.Crashed?)
      && forall s :: s != m.spot ==> Stack(next, s) == Stack(w, s)
  {
    OnTopMeans(before, w, plans, m);
    var next := Pop(tape, w, m.spot).0;
    var was := Stack(before, m.spot);
    assert (was + [Owned(m.gen)])[..|was|] == was;
    forall s ensures Stack(next, s) == Stack(before, s)
      || exists p :: p in plans && p.spot == s && Stack(next, s) == Stack(before, s) + [Owned(p.gen)]
    {
      if s != m.spot { assert Stack(next, s) == Stack(w, s); }
    }
  }

  lemma {:induction false} MountAllBetween(tape: Tape, before: World, w: World, plans: seq<Mount>, todo: seq<Mount>)
    requires Between(before, w, plans) && Fresh(before, plans) && forall m :: m in todo ==> m in plans
    ensures var (next, exit) := MountAll(tape, w, todo);
      Between(before, next, plans) && SameRest(w, next) && next.record == w.record
      && (exit.Done? || exit.Failed? || exit.Crashed?)
    decreases |todo|
  {
    if todo != [] {
      if OnTop(w, todo[0]) {
        MountAllBetween(tape, before, w, plans, todo[1..]);
      } else {
        PushBetween(tape, before, w, plans, todo[0]);
        var (w1, pushed) := Push(tape, w, todo[0]);
        if pushed.Done? {
          var (w2, seen) := Verify(tape, w1, todo[0]);
          assert forall s :: Stack(w2, s) == Stack(w1, s);
          if seen.Done? { MountAllBetween(tape, before, w2, plans, todo[1..]); }
        }
      }
    }
  }

  lemma {:induction false} VerifyAllMeans(tape: Tape, w: World, todo: seq<Mount>)
    ensures var (next, exit) := VerifyAll(tape, w, todo);
      && next == w.(clock := next.clock) && (exit.Done? || exit.Failed? || exit.Crashed?)
      && (exit.Done? ==> forall m :: m in todo ==> OnTop(w, m))
    decreases |todo|
  {
    if todo != [] {
      var (next, seen) := Verify(tape, w, todo[0]);
      if seen.Done? {
        VerifyAllMeans(tape, next, todo[1..]);
        assert forall m :: m in todo[1..] && OnTop(next, m) ==> OnTop(w, m);
        assert forall m :: m in todo ==> m == todo[0] || m in todo[1..];
      }
    }
  }

  lemma {:induction false} ProbeAllMeans(tape: Tape, w: World, inv: Inventory)
    ensures var (next, exit) := ProbeAll(tape, w, inv);
      next == w.(clock := next.clock) && (exit.Done? || exit.Failed? || exit.Crashed?)
    decreases |inv|
  {
    if inv != [] {
      if !inv[0].managed { ProbeAllMeans(tape, w, inv[1..]); }
      else {
        var (next, trusted) := Ask(tape, w);
        if trusted.Done? { ProbeAllMeans(tape, next, inv[1..]); }
      }
    }
  }

  lemma InstallBetween(tape: Tape, w: World, plans: seq<Mount>, inv: Inventory)
    requires Fresh(w, plans)
    ensures var (next, exit) := Install(tape, w, plans, inv);
      && Between(w, next, plans) && SameRest(w, next) && next.record == w.record
      && (exit.Done? || exit.Failed? || exit.Crashed?)
      && (exit.Done? ==> forall m :: m in plans ==> Stack(next, m.spot) == Stack(w, m.spot) + [Owned(m.gen)])
  {
    MountAllBetween(tape, w, w, plans, plans);
    var (w1, mounted) := MountAll(tape, w, plans);
    if mounted.Done? {
      VerifyAllMeans(tape, w1, plans);
      var (w2, seen) := VerifyAll(tape, w1, plans);
      assert forall s :: Stack(w2, s) == Stack(w1, s);
      if seen.Done? {
        ProbeAllMeans(tape, w2, inv);
        var w3 := ProbeAll(tape, w2, inv).0;
        assert forall s :: Stack(w3, s) == Stack(w1, s);
        forall m | m in plans ensures Stack(w3, m.spot) == Stack(w, m.spot) + [Owned(m.gen)] {
          OnTopMeans(w, w1, plans, m);
        }
      }
    }
  }

  lemma AllRestored(before: World, w: World, plans: seq<Mount>)
    requires Between(before, w, plans)
    requires forall k :: 0 <= k < |plans| ==> Stack(w, plans[k].spot) == Stack(before, plans[k].spot)
    ensures SameStacks(before, w)
  {
    forall s ensures Stack(w, s) == Stack(before, s) {
      if m :| m in plans && m.spot == s {
        assert Stack(w, m.spot) == Stack(before, m.spot);
      }
    }
  }

  lemma RecordOnly(before: World, w: World, next: World, plans: seq<Mount>)
    requires Between(before, w, plans) && SameStacks(before, w) && next.stacks == w.stacks
    ensures Between(before, next, plans) && SameStacks(before, next)
  {
    assert forall s :: Stack(next, s) == Stack(w, s);
  }

  lemma SavesRecord(tape: Tape, w: World, record: seq<Mount>)
    ensures var (next, exit) := SaveMounts(tape, w, record);
      && next.stacks == w.stacks && SameRest(w, next) && (exit.Done? || exit.Failed? || exit.Crashed?)
      && (exit.Done? ==> Recorded(next) == record)
  {
  }

  lemma {:induction false} RollbackRestores(tape: Tape, before: World, w: World, plans: seq<Mount>, n: nat, clean: bool, record: seq<Mount>)
    requires n <= |plans| && Between(before, w, plans) && Fresh(before, plans)
    requires clean ==> forall k :: n <= k < |plans| ==> Stack(w, plans[k].spot) == Stack(before, plans[k].spot)
    ensures var (next, exit) := Rollback(tape, w, plans, n, clean, record);
      && Between(before, next, plans) && SameRest(w, next) && !exit.Done?
      && (exit.Failed? || exit.Unsaved? ==> SameStacks(before, next))
      && (exit.Failed? ==> Recorded(next) == record)
    decreases n
  {
    hide Between, Fresh, Pop, SaveMounts, SameStacks;
    if n == 0 {
      if clean {
        AllRestored(before, w, plans);
        SavesRecord(tape, w, record);
        RecordOnly(before, w, SaveMounts(tape, w, record).0, plans);
      }
    } else {
      var m := plans[n - 1];
      OnTopMeans(before, w, plans, m);
      if !OnTop(w, m) {
        RollbackRestores(tape, before, w, plans, n - 1, clean, record);
      } else {
        PopBetween(tape, before, w, plans, m);
        var (next, popped) := Pop(tape, w, m.spot);
        if !popped.Crashed? {
          RollbackRestores(tape, before, next, plans, n - 1, clean && popped.Done?, record);
        }
      }
    }
  }

  /** When no umount fails, the rollback reports a complete one. */
  lemma {:induction false} RollbackCompletes(tape: Tape, w: World, plans: seq<Mount>, n: nat, record: seq<Mount>)
    requires n <= |plans| && forall t :: w.clock <= t <= w.clock + n ==> tape(t).verdict.Succeed?
    ensures Rollback(tape, w, plans, n, true, record).1.Failed?
    decreases n
  {
    if n > 0 {
      if !OnTop(w, plans[n - 1]) {
        RollbackCompletes(tape, w, plans, n - 1, record);
      } else {
        RollbackCompletes(tape, Pop(tape, w, plans[n - 1].spot).0, plans, n - 1, record);
      }
    }
  }

  // ---- applyTrust is all or nothing ----

  /** The stack of s gained one fresh generation for its target, and nothing else. */
  ghost predicate Gained(w: World, next: World, s: Spot, managed: set<string>) {
    exists g :: |w.gens| <= g < |next.gens| && Stack(next, s) == Stack(w, s) + [Owned(g)] && next.gens[g].target == s.1
      && next.gens[g].files.Keys == managed && Extends(next.gens[g].base, managed, next.gens[g].live, next.gens[g].files)
  }

  lemma ApplyAllOrNothing(tape: Tape, w: World, spots: seq<Spot>, inv: Inventory)
    requires Known(w) && Managed(inv) != {} && spots != []
    ensures var (next, exit) := Apply(tape, w, spots, inv);
      && next.store == w.store && next.inventory == w.inventory && w.gens <= next.gens
      && (forall s :: Stack(next, s) == Stack(w, s) || (s in spots && Gained(w, next, s, Managed(inv))))
      && (exit.Failed? || exit.Unsaved? ==> SameStacks(w, next))
      && (exit.Failed? ==> Recorded(next) == Recorded(w))
      && (exit.Done? ==> forall s :: s in spots ==> Gained(w, next, s, Managed(inv)))
  {
    hide Good, Install, Rollback, PlanTrust, Planned, Gained, SaveMounts;
    var certs := ManagedCerts(inv);
    var managed := Ids(certs);
    ManagedIds(inv);
    var (w1, found) := Ask(tape, w);
    assert SameStacks(w, w1);
    if found.Done? {
      NothingPlanned(w1, managed, |w.gens|);
      PlanTrustPlans(tape, w1, certs, spots, map[], [], |w.gens|);
      var (w2, planned, plans) := PlanTrust(tape, w1, certs, spots, map[], []);
      assert SameStacks(w, w2);
      if planned.Done? {
        assert plans[0].spot == spots[0];
        FreshPlans(w, w2, plans, managed);
        CarryOut(tape, w2, plans, inv, Recorded(w));
        var (next, exit) := SaveAndInstall(tape, w2, plans, inv, Recorded(w));
        assert Apply(tape, w, spots, inv) == (next, exit);
        BetweenGained(w, w2, next, plans, spots, managed);
        if exit.Done? {
          forall s | s in spots ensures Gained(w, next, s, managed) {
            var i :| 0 <= i < |spots| && spots[i] == s;
            MountGained(w, w2, next, plans, plans[i], managed);
          }
        }
      }
    }
  }

  lemma NothingPlanned(w: World, managed: set<string>, first: nat)
    ensures Planned(w, [], managed, first) && Cached(w, map[], [], managed, first)
  {
  }

  /** `applyTrust` from saving the plan on. */
  function SaveAndInstall(tape: Tape, w: World, plans: seq<Mount>, inv: Inventory, record: seq<Mount>): (World, Exit) {
    var (w3, saved) := SaveMounts(tape, w, plans);
    if !saved.Done? then (w3, saved)
    else
      var (w4, installed) := Install(tape, w3, plans, inv);
      if installed.Done? || installed.Crashed? then (w4, installed)
      else Rollback(tape, w4, plans, |plans|, true, record)
  }

  lemma CarryOut(tape: Tape, w: World, plans: seq<Mount>, inv: Inventory, record: seq<Mount>)
    requires Fresh(w, plans) && record == Recorded(w)
    ensures var (next, exit) := SaveAndInstall(tape, w, plans, inv, record);
      && SameRest(w, next) && Between(w, next, plans)
      && (exit.Failed? || exit.Unsaved? ==> SameStacks(w, next))
      && (exit.Failed? ==> Recorded(next) == record)
      && (exit.Done? ==> forall m :: m in plans ==> Stack(next, m.spot) == Stack(w, m.spot) + [Owned(m.gen)])
  {
    hide Install, Rollback, Between, OnePerTarget;
    var (w3, saved) := SaveMounts(tape, w, plans);
    assert SameStacks(w, w3);
    if saved.Done? {
      assert Fresh(w3, plans);
      InstallBetween(tape, w3, plans, inv);
      var (w4, installed) := Install(tape, w3, plans, inv);
      BetweenFrom(w, w3, w4, plans);
      if installed.Failed? {
        RollbackRestores(tape, w3, w4, plans, |plans|, true, record);
        BetweenFrom(w, w3, Rollback(tape, w4, plans, |plans|, true, record).0, plans);
      }
    } else {
      BetweenSame(w, w3, plans);
    }
  }

  lemma BetweenSame(w: World, next: World, plans: seq<Mount>)
    requires SameStacks(w, next)
    ensures Between(w, next, plans)
  {
  }

  lemma BetweenFrom(w: World, w3: World, next: World, plans: seq<Mount>)
    requires SameStacks(w, w3) && Between(w3, next, plans)
    ensures Between(w, next, plans)
  {
    forall s ensures Stack(next, s) == Stack(w, s)
      || exists m :: m in plans && m.spot == s && Stack(next, s) == Stack(w, s) + [Owned(m.gen)]
    {
      assert Stack(w3, s) == Stack(w, s);
    }
  }

  lemma MountGained(w: World, w2: World, next: World, plans: seq<Mount>, m: Mount, managed: set<string>)
    requires SameStacks(w, w2) && Planned(w2, plans, managed, |w.gens|) && m in plans
    requires next.gens == w2.gens && Stack(next, m.spot) == Stack(w2, m.spot) + [Owned(m.gen)]
    ensures Gained(w, next, m.spot, managed)
  {
    assert Prepared(w2, m, managed, |w.gens|);
    assert Stack(w2, m.spot) == Stack(w, m.spot);
  }

  lemma FreshPlans(w: World, w2: World, plans: seq<Mount>, managed: set<string>)
    requires Known(w) && SameStacks(w, w2) && Planned(w2, plans, managed, |w.gens|)
    ensures Fresh(w2, plans) && Fresh(w, plans)
  {
    forall m, s | m in plans ensures Owned(m.gen) !in Stack(w, s) && Owned(m.gen) !in Stack(w2, s) {
      assert Prepared(w2, m, managed, |w.gens|);
    }
  }

  lemma BetweenGained(w: World, w2: World, next: World, plans: seq<Mount>, spots: seq<Spot>, managed: set<string>)
    requires SameStacks(w, w2) && Planned(w2, plans, managed, |w.gens|) && Between(w2, next, plans)
    requires next.gens == w2.gens && |plans| == |spots| && forall i :: 0 <= i < |spots| ==> plans[i].spot == spots[i]
    ensures forall s :: Stack(next, s) == Stack(w, s) || (s in spots && Gained(w, next, s, managed))
  {
    hide Gained, Planned;
    forall s | Stack(next, s) != Stack(w, s) ensures s in spots && Gained(w, next, s, managed) {
      assert Stack(w2, s) == Stack(w, s);
      var m :| m in plans && m.spot == s && Stack(next, s) == Stack(w2, s) + [Owned(m.gen)];
      MountGained(w, w2, next, plans, m, managed);
      var i :| 0 <= i < |plans| && plans[i] == m;
      assert spots[i] == s;
    }
  }

  // ---- removeTrust ----

  /** Only layers of our own were taken, from the top. */
  ghost predicate Trimmed(w: World, next: World) {
    forall s :: Stack(next, s) <= Stack(w, s)
      && forall k :: |Stack(next, s)| <= k < |Stack(w, s)| ==> Stack(w, s)[k].Owned?
  }

  lemma TrimmedAgain(a: World, b: World, c: World)
    requires Trimmed(a, b) && Trimmed(b, c)
    ensures Trimmed(a, c)
  {
    forall s ensures Stack(c, s) <= Stack(a, s)
      && forall k :: |Stack(c, s)| <= k < |Stack(a, s)| ==> Stack(a, s)[k].Owned?
    {
      assert Stack(c, s) <= Stack(b, s) <= Stack(a, s);
      forall k | |Stack(c, s)| <= k < |Stack(a, s)| ensures Stack(a, s)[k].Owned? {
        if k < |Stack(b, s)| { assert Stack(b, s)[k].Owned?; }
      }
    }
  }

  lemma {:induction false} PopSpotTrims(tape: Tape, w: World, s: Spot, i: nat)
    requires i <= POP_LIMIT
    ensures var (next, exit) := PopSpot(tape, w, s, i);
      && Trimmed(w, next) && SameRest(w, next) && next.record == w.record
      && (exit.Done? || exit.Failed? || exit.Crashed?)
      && (exit.Done? ==> !OwnedTop(next, s))
    decreases POP_LIMIT - i
  {
    if OwnedTop(w, s) && i < POP_LIMIT {
      var (next, popped) := Pop(tape, w, s);
      assert Trimmed(w, next);
      if popped.Done? {
        PopSpotTrims(tape, next, s, i + 1);
        TrimmedAgain(w, next, PopSpot(tape, next, s, i + 1).0);
      }
    }
  }

  lemma TrimmedKeepsForeignTop(w: World, next: World, s: Spot)
    requires Trimmed(w, next) && !OwnedTop(w, s)
    ensures !OwnedTop(next, s)
  {
    var was, now := Stack(w, s), Stack(next, s);
    assert now <= was;
    assert forall k :: |now| <= k < |was| ==> was[k].Owned?;
  }

  lemma {:induction false} PopAllTrims(tape: Tape, w: World, spots: seq<Spot>)
    ensures var (next, exit) := PopAll(tape, w, spots);
      && Trimmed(w, next) && SameRest(w, next) && next.record == w.record
      && (exit.Done? || exit.Failed? || exit.Crashed?)
      && (exit.Done? ==> forall s :: s in spots ==> !OwnedTop(next, s))
    decreases |spots|
  {
    if spots != [] {
      PopSpotTrims(tape, w, spots[0], 0);
      var (mid, popped) := PopSpot(tape, w, spots[0], 0);
      if popped.Done? {
        PopAllTrims(tape, mid, spots[1..]);
        var next := PopAll(tape, mid, spots[1..]).0;
        TrimmedAgain(w, mid, next);
        TrimmedKeepsForeignTop(mid, next, spots[0]);
        assert forall s :: s in spots ==> s == spots[0] || s in spots[1..];
      }
    }
  }

  /** Whatever fails, removal takes only our layers; when it succeeds none is left
      in sight. */
  lemma RemoveTrims(tape: Tape, w: World, spots: seq<Spot>)
    ensures var (next, exit) := Remove(tape, w, spots);
      && Trimmed(w, next) && SameRest(w, next)
      && (exit.Done? || exit.Failed? || exit.Crashed?)
      && (exit.Done? ==> Recorded(next) == [] && forall s :: s in spots ==> !OwnedTop(next, s))
  {
    hide PopAll;
    var (w1, found) := Ask(tape, w);
    assert SameStacks(w, w1);
    if found.Done? {
      PopAllTrims(tape, w1, spots);
      var (w2, popped) := PopAll(tape, w1, spots);
      if popped.Done? {
        var next := SaveMounts(tape, w2, []).0;
        assert SameStacks(w2, next);
        assert forall s :: OwnedTop(next, s) == OwnedTop(w2, s);
      }
    }
  }

  // ---- the original store survives ----

  /** Nobody else mounts over the store; each generation keeps the original. */
  ghost predicate Healthy(w: World) {
    && (forall s :: OwnStack(w, s) && |Stack(w, s)| <= LAYER_LIMIT)
    && (forall g :: 0 <= g < |w.gens| ==> Faithful(w, w.gens[g]))
  }

  predicate Faithful(w: World, g: Generation) {
    g.base == Store(w, g.target) && Extends(g.base, g.files.Keys, g.live, g.files)
  }

  /** The directory seen at s is the original store plus exactly these. */
  ghost predicate Shows(w: World, s: Spot, managed: set<string>) {
    exists files :: Extends(Store(w, s.1), managed, Visible(w, s), files)
  }

  lemma HealthyBase(w: World, s: Spot)
    requires Healthy(w)
    ensures BaseOf(w, s) == Store(w, s.1)
  {
    var stack := Stack(w, s);
    if stack != [] {
      assert stack[|stack| - 1].Owned?;
      assert Faithful(w, w.gens[stack[|stack| - 1].gen]);
    }
  }

  lemma {:induction false} PlanTrustHealthy(tape: Tape, w: World, certs: seq<Cert>, spots: seq<Spot>,
                                            prepared: map<string, nat>, plans: seq<Mount>)
    requires Healthy(w)
    ensures Healthy(PlanTrust(tape, w, certs, spots, prepared, plans).0)
    decreases |spots|
  {
    if spots != [] {
      var s := spots[0];
      if |Stack(w, s)| < LAYER_LIMIT && (Stack(w, s) == [] || OwnedTop(w, s)) {
        if s.1 in prepared {
          PlanTrustHealthy(tape, w, certs, spots[1..], prepared, plans + [Mount(s, prepared[s.1])]);
        } else {
          var (next, exit) := NewGeneration(tape, w, s, certs);
          HealthyBase(w, s);
          NewGenerationHealthy(tape, w, s, certs);
          if exit.Done? {
            PlanTrustHealthy(tape, next, certs, spots[1..], prepared[s.1 := |w.gens|], plans + [Mount(s, |w.gens|)]);
          }
        }
      }
    }
  }

  lemma NewGenerationHealthy(tape: Tape, w: World, s: Spot, certs: seq<Cert>)
    requires Healthy(w)
    ensures Healthy(NewGeneration(tape, w, s, certs).0)
  {
    hide Extends, Named, ValidCerts, Regular;
    var next := NewGeneration(tape, w, s, certs).0;
    HealthyBase(w, s);
    NewGenerationGood(tape, w, s, certs);
    assert SameStacks(w, next);
    forall g | 0 <= g < |next.gens| ensures Faithful(next, next.gens[g]) {
      if g < |w.gens| { assert Faithful(w, w.gens[g]); }
    }
  }

  lemma TrimmedHealthy(w: World, next: World)
    requires Healthy(w) && Trimmed(w, next) && SameRest(w, next)
    ensures Healthy(next)
  {
    forall s ensures |Stack(next, s)| <= LAYER_LIMIT { assert Stack(next, s) <= Stack(w, s); }
    forall s, k | 0 <= k < |Stack(next, s)|
      ensures Stack(next, s)[k].Owned? && Stack(next, s)[k].gen < |next.gens| && next.gens[Stack(next, s)[k].gen].target == s.1
    {
      assert Stack(next, s) <= Stack(w, s);
      assert Stack(next, s)[k] == Stack(w, s)[k];
    }
    forall g | 0 <= g < |next.gens| ensures Faithful(next, next.gens[g]) { assert Faithful(w, w.gens[g]); }
  }

  lemma ApplyHealthy(tape: Tape, w: World, spots: seq<Spot>, inv: Inventory)
    requires Healthy(w)
    ensures var (next, exit) := Apply(tape, w, spots, inv);
      Healthy(next) && next.store == w.store && next.inventory == w.inventory
  {
    hide Extends, Install, Rollback, PlanTrust, Faithful, Remove, SaveMounts, Planned;
    var certs := ManagedCerts(inv);
    var managed := Ids(certs);
    ManagedIds(inv);
    var (w1, found) := Ask(tape, w);
    assert SameStacks(w, w1);
    assert Healthy(w1) by { TrimmedHealthy(w, w1); }
    if found.Done? {
      if managed == {} {
        RemoveTrims(tape, w1, spots);
        TrimmedHealthy(w1, Remove(tape, w1, spots).0);
      } else {
        PlanTrustHealthy(tape, w1, certs, spots, map[], []);
        NothingPlanned(w1, managed, |w.gens|);
        PlanTrustPlans(tape, w1, certs, spots, map[], [], |w.gens|);
        var (w2, planned, plans) := PlanTrust(tape, w1, certs, spots, map[], []);
        if planned.Done? {
          if plans == [] {
            RemoveTrims(tape, w2, spots);
            TrimmedHealthy(w2, Remove(tape, w2, spots).0);
          } else {
            assert SameStacks(w, w2);
            FreshPlans(w, w2, plans, managed);
            CarryOut(tape, w2, plans, inv, Recorded(w));
            var next := SaveAndInstall(tape, w2, plans, inv, Recorded(w)).0;
            assert next == Apply(tape, w, spots, inv).0;
            BetweenHealthy(w2, next, plans, managed, |w.gens|);
          }
        }
      }
    }
  }

  lemma BetweenHealthy(w: World, next: World, plans: seq<Mount>, managed: set<string>, first: nat)
    requires Healthy(w) && Planned(w, plans, managed, first) && Between(w, next, plans) && SameRest(w, next)
    ensures Healthy(next)
  {
    hide Extends, Faithful;
    forall s ensures |Stack(next, s)| <= LAYER_LIMIT && OwnStack(next, s) {
      if Stack(next, s) != Stack(w, s) {
        var m :| m in plans && m.spot == s && Stack(next, s) == Stack(w, s) + [Owned(m.gen)];
        assert Prepared(w, m, managed, first);
      }
    }
    forall g | 0 <= g < |next.gens| ensures Faithful(next, next.gens[g]) {
      assert Faithful(w, w.gens[g]);
      FaithfulStore(w, next, w.gens[g]);
    }
  }

  predicate OwnStack(w: World, s: Spot) {
    forall k :: 0 <= k < |Stack(w, s)| ==>
      Stack(w, s)[k].Owned? && Stack(w, s)[k].gen < |w.gens| && w.gens[Stack(w, s)[k].gen].target == s.1
  }

  lemma FaithfulStore(w: World, next: World, g: Generation)
    requires Faithful(w, g) && next.store == w.store
    ensures Faithful(next, g)
  {
  }

  /** A reported success shows the original store plus exactly the managed
      certificates, at every spot. */
  lemma ApplyShows(tape: Tape, w: World, spots: seq<Spot>, inv: Inventory)
    requires Healthy(w)
    ensures var (next, exit) := Apply(tape, w, spots, inv);
      exit.Done? ==> forall s :: s in spots ==> Shows(next, s, Managed(inv))
  {
    hide Extends, Apply, Faithful;
    ApplyHealthy(tape, w, spots, inv);
    var (next, exit) := Apply(tape, w, spots, inv);
    if exit.Done? && spots != [] {
      if Managed(inv) == {} {
        ApplyNothing(tape, w, spots, inv);
        forall s | s in spots ensures Shows(next, s, {}) { BareShows(next, s); }
      } else {
        ApplyAllOrNothing(tape, w, spots, inv);
        forall s | s in spots ensures Shows(next, s, Managed(inv)) {
          assert Gained(w, next, s, Managed(inv));
          TopShows(next, s);
        }
      }
    }
  }

  lemma TopShows(w: World, s: Spot)
    requires Healthy(w) && Stack(w, s) != []
    ensures var g := w.gens[Stack(w, s)[|Stack(w, s)| - 1].gen]; Shows(w, s, g.files.Keys)
  {
    var g := w.gens[Stack(w, s)[|Stack(w, s)| - 1].gen];
    assert Faithful(w, g);
    assert Extends(Store(w, s.1), g.files.Keys, Visible(w, s), g.files);
  }

  lemma BareShows(w: World, s: Spot)
    requires Healthy(w) && !OwnedTop(w, s)
    ensures Stack(w, s) == [] && Visible(w, s) == Store(w, s.1) && Shows(w, s, {})
  {
    assert forall k :: 0 <= k < |Stack(w, s)| ==> Stack(w, s)[k].Owned?;
    ExtendsNothing(Store(w, s.1));
  }

  lemma ApplyNothing(tape: Tape, w: World, spots: seq<Spot>, inv: Inventory)
    requires Managed(inv) == {}
    ensures var (next, exit) := Apply(tape, w, spots, inv);
      && Trimmed(w, next) && SameRest(w, next)
      && (exit.Done? ==> forall s :: s in spots ==> !OwnedTop(next, s))
  {
    hide Remove;
    ManagedIds(inv);
    var (w1, found) := Ask(tape, w);
    assert SameStacks(w, w1);
    if found.Done? {
      RemoveTrims(tape, w1, spots);
      TrimmedAgain(w, w1, Remove(tape, w1, spots).0);
    }
  }

  /** A completed removal leaves the original directory. */
  lemma RemoveShowsOriginal(tape: Tape, w: World, spots: seq<Spot>)
    requires Healthy(w)
    ensures var (next, exit) := Remove(tape, w, spots);
      exit.Done? ==> forall s :: s in spots ==> Visible(next, s) == Store(w, s.1)
  {
    hide Remove, Extends;
    RemoveTrims(tape, w, spots);
    var (next, exit) := Remove(tape, w, spots);
    TrimmedHealthy(w, next);
    if exit.Done? {
      forall s | s in spots ensures Visible(next, s) == Store(w, s.1) { BareShows(next, s); }
    }
  }

  // ---- every history ----

  datatype Event =
    | ApplyTrust(spots: seq<Spot>, inv: Inventory)
    | RemoveTrust(spots: seq<Spot>)
    | ChangeInventory(spots: seq<Spot>, inv: Inventory)

  function Step(tape: Tape, w: World, e: Event): World {
    match e
    case ApplyTrust(spots, inv) => Apply(tape, w, spots, inv).0
    case RemoveTrust(spots) => Remove(tape, w, spots).0
    case ChangeInventory(spots, inv) => Commit(tape, w, spots, inv).0
  }

  function History(tape: Tape, w: World, events: seq<Event>): World {
    if events == [] then w else Step(tape, History(tape, w, events[..|events| - 1]), events[|events| - 1])
  }

  lemma StepHealthy(tape: Tape, w: World, e: Event)
    requires Healthy(w)
    ensures Healthy(Step(tape, w, e)) && Step(tape, w, e).store == w.store
  {
    hide Apply, Remove, Healthy;
    match e
    case ApplyTrust(spots, inv) => ApplyHealthy(tape, w, spots, inv);
    case RemoveTrust(spots) => RemoveTrims(tape, w, spots); TrimmedHealthy(w, Remove(tape, w, spots).0);
    case ChangeInventory(spots, inv) =>
      ApplyHealthy(tape, w, spots, inv);
      var (w1, applied) := Apply(tape, w, spots, inv);
      if applied.Done? {
        var (w2, saved) := SaveInventory(tape, w1, inv);
        SavedHealthy(w1, w2);
        if saved.Failed? { ApplyHealthy(tape, w2, spots, w.inventory); }
      }
  }

  lemma SavedHealthy(w: World, next: World)
    requires Healthy(w) && next.stacks == w.stacks && next.store == w.store && next.gens == w.gens
    ensures Healthy(next)
  {
    assert SameStacks(w, next);
    forall g | 0 <= g < |next.gens| ensures Faithful(next, next.gens[g]) { assert Faithful(w, w.gens[g]); }
  }

  /** Whatever is on top, it is the original store with some additions. */
  ghost predicate ShowsStore(w: World, s: Spot) {
    exists managed :: Shows(w, s, managed)
  }

  /** Through every sequence of applies, removals and inventory changes, with any
      failures and crashes, no generation ever drifts from the original store. */
  lemma {:induction false} EveryHistoryHealthy(tape: Tape, w: World, events: seq<Event>)
    requires Healthy(w)
    ensures var next := History(tape, w, events);
      && Healthy(next) && next.store == w.store
      && forall s :: ShowsStore(next, s)
    decreases |events|
  {
    hide Step, Faithful, Extends;
    if events != [] {
      EveryHistoryHealthy(tape, w, events[..|events| - 1]);
      StepHealthy(tape, History(tape, w, events[..|events| - 1]), events[|events| - 1]);
    }
    var next := History(tape, w, events);
    assert Healthy(next) && next.store == w.store;
    forall s ensures ShowsStore(next, s) {
      if Stack(next, s) == [] {
        BareShows(next, s);
      } else {
        TopShows(next, s);
      }
    }
  }
}
