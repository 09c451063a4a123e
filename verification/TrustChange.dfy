/** cert_api.go: changing the inventory means applying it, saving it, and going
    back if the save fails. Here: when that finishes, and when a reported
    failure leaves the saved inventory and the visible stores in agreement. */
module TrustChange {
  import opened Text
  import opened Naming
  import opened Trust
  import opened TrustRuns

  // ---- undisturbed calls finish ----

  predicate CalmFrom(tape: Tape, from: nat, to: nat) {
    forall t :: from <= t < to ==> tape(t).verdict.Succeed?
  }

  /** The world after n of our layers at s were popped without trouble. */
  function Popped(w: World, s: Spot, n: nat): World
    requires n <= |Stack(w, s)|
  {
    if n == 0 then w else w.(stacks := w.stacks[s := Stack(w, s)[..|Stack(w, s)| - n]], clock := w.clock + n)
  }

  lemma PopNext(tape: Tape, w: World, s: Spot, n: nat)
    requires n < |Stack(w, s)| && tape(w.clock + n).verdict.Succeed?
    requires OwnStack(w, s)
    ensures OwnedTop(Popped(w, s, n), s)
    ensures Pop(tape, Popped(w, s, n), s) == (Popped(w, s, n + 1), Done)
  {
    assert Stack(w, s)[|Stack(w, s)| - n - 1].Owned?;
    var stack := Stack(w, s);
    var mid := Popped(w, s, n);
    assert Stack(mid, s) == stack[..|stack| - n];
    assert stack[..|stack| - n][..|stack| - n - 1] == stack[..|stack| - (n + 1)];
    assert w.stacks[s := stack[..|stack| - n]][s := stack[..|stack| - (n + 1)]] == w.stacks[s := stack[..|stack| - (n + 1)]];
  }

  lemma {:induction false} PopSpotCalm(tape: Tape, w: World, s: Spot, i: nat, n: nat)
    requires OwnStack(w, s) && n <= |Stack(w, s)| && i + |Stack(w, s)| <= POP_LIMIT
    requires CalmFrom(tape, w.clock, w.clock + n)
    ensures PopSpot(tape, w, s, i) == PopSpot(tape, Popped(w, s, n), s, i + n)
    decreases n
  {
    hide PopSpot, Pop, Popped, OwnedTop;
    if n > 0 {
      PopSpotCalm(tape, w, s, i, n - 1);
      PopNext(tape, w, s, n - 1);
      PopSpotNext(tape, Popped(w, s, n - 1), s, i + n - 1);
    } else {
      assert Popped(w, s, 0) == w by { PoppedNone(w, s); }
    }
  }

  lemma PoppedNone(w: World, s: Spot)
    ensures Popped(w, s, 0) == w
  {
  }

  lemma PopSpotNext(tape: Tape, w: World, s: Spot, i: nat)
    requires OwnedTop(w, s) && i < POP_LIMIT && Pop(tape, w, s).1.Done?
    ensures PopSpot(tape, w, s, i) == PopSpot(tape, Pop(tape, w, s).0, s, i + 1)
  {
  }

  lemma PopSpotClears(tape: Tape, w: World, s: Spot)
    requires OwnStack(w, s) && |Stack(w, s)| <= LAYER_LIMIT && CalmFrom(tape, w.clock, w.clock + |Stack(w, s)|)
    ensures PopSpot(tape, w, s, 0) == (Popped(w, s, |Stack(w, s)|), Done)
  {
    PopSpotCalm(tape, w, s, 0, |Stack(w, s)|);
  }

  lemma PoppedHealthy(w: World, s: Spot, n: nat)
    requires Healthy(w) && n <= |Stack(w, s)|
    ensures var next := Popped(w, s, n);
      && Healthy(next) && SameRest(w, next) && Stack(next, s) == Stack(w, s)[..|Stack(w, s)| - n]
      && forall other :: other != s ==> Stack(next, other) == Stack(w, other)
  {
    assert OwnStack(w, s);
    TrimmedHealthy(w, Popped(w, s, n));
  }

  /** An undisturbed removal always finishes: the stacks never reach its limit. */
  lemma {:induction false} PopAllCompletes(tape: Tape, w: World, spots: seq<Spot>)
    requires Healthy(w) && forall t :: t >= w.clock ==> tape(t).verdict.Succeed?
    ensures PopAll(tape, w, spots).1.Done? && PopAll(tape, w, spots).0.clock >= w.clock
    decreases |spots|
  {
    hide Healthy;
    if spots != [] {
      assert OwnStack(w, spots[0]) && |Stack(w, spots[0])| <= LAYER_LIMIT by { HealthySpot(w, spots[0]); }
      PopSpotClears(tape, w, spots[0]);
      PoppedHealthy(w, spots[0], |Stack(w, spots[0])|);
      PopAllCompletes(tape, Popped(w, spots[0], |Stack(w, spots[0])|), spots[1..]);
    }
  }

  lemma HealthySpot(w: World, s: Spot)
    requires Healthy(w)
    ensures OwnStack(w, s) && |Stack(w, s)| <= LAYER_LIMIT
  {
  }

  lemma RemoveCompletes(tape: Tape, w: World, spots: seq<Spot>)
    requires Healthy(w) && forall t :: t >= w.clock ==> tape(t).verdict.Succeed?
    ensures Remove(tape, w, spots).1.Done?
  {
    hide PopAll;
    var w1 := Ask(tape, w).0;
    assert SameStacks(w, w1);
    assert Healthy(w1) by { TrimmedHealthy(w, w1); }
    PopAllCompletes(tape, w1, spots);
  }

  lemma PushVerifies(tape: Tape, w: World, plans: seq<Mount>, m: Mount, managed: set<string>)
    requires tape(w.clock).verdict.Succeed? && tape(w.clock + 1).verdict.Succeed?
    requires OnePerTarget(plans) && m in plans && m.gen < |w.gens| && Good(w.gens[m.gen], m.spot.1, managed)
    ensures Push(tape, w, m).1.Done?
    ensures var (next, exit) := Verify(tape, Push(tape, w, m).0, m);
      && exit.Done? && next.clock == w.clock + 2 && next.gens == w.gens && OnTop(next, m)
      && forall p :: p in plans && OnTop(w, p) ==> OnTop(next, p)
  {
    var w1 := Push(tape, w, m).0;
    assert Stack(w1, m.spot) == Stack(w, m.spot) + [Owned(m.gen)];
    var next := Verify(tape, w1, m).0;
    forall p | p in plans && OnTop(w, p) ensures OnTop(next, p) {
      assert p.spot != m.spot ==> Stack(next, p.spot) == Stack(w, p.spot);
      assert p.spot == m.spot ==> p.gen == m.gen;
    }
  }

  lemma {:induction false} MountAllCompletes(tape: Tape, w: World, plans: seq<Mount>, todo: seq<Mount>, managed: set<string>)
    requires forall t :: t >= w.clock ==> tape(t).verdict.Succeed?
    requires OnePerTarget(plans) && forall m :: m in plans ==> m.gen < |w.gens| && Good(w.gens[m.gen], m.spot.1, managed)
    requires forall m :: m in todo ==> m in plans
    ensures var (next, exit) := MountAll(tape, w, todo);
      && exit.Done? && next.clock >= w.clock && next.gens == w.gens
      && (forall m :: m in plans && OnTop(w, m) ==> OnTop(next, m))
      && forall m :: m in todo ==> OnTop(next, m)
    decreases |todo|
  {
    hide Good, Verify, Push, OnePerTarget;
    if todo != [] {
      var m := todo[0];
      assert forall p :: p in todo ==> p == m || p in todo[1..];
      if OnTop(w, m) {
        MountAllCompletes(tape, w, plans, todo[1..], managed);
      } else {
        var w2 := Verify(tape, Push(tape, w, m).0, m).0;
        PushVerifies(tape, w, plans, m, managed);
        MountAllCompletes(tape, w2, plans, todo[1..], managed);
      }
    }
  }

  lemma {:induction false} VerifyAllCompletes(tape: Tape, w: World, plans: seq<Mount>, managed: set<string>)
    requires forall t :: t >= w.clock ==> tape(t).verdict.Succeed?
    requires forall m :: m in plans ==> OnTop(w, m) && m.gen < |w.gens| && Good(w.gens[m.gen], m.spot.1, managed)
    ensures VerifyAll(tape, w, plans).1.Done? && VerifyAll(tape, w, plans).0.clock >= w.clock
    decreases |plans|
  {
    if plans != [] {
      var next := Verify(tape, w, plans[0]).0;
      assert Good(w.gens[plans[0].gen], plans[0].spot.1, managed);
      assert forall m :: OnTop(w, m) ==> OnTop(next, m);
      VerifyAllCompletes(tape, next, plans[1..], managed);
    }
  }

  lemma {:induction false} ProbeAllCompletes(tape: Tape, w: World, inv: Inventory)
    requires forall t :: t >= w.clock ==> tape(t).verdict.Succeed?
    ensures ProbeAll(tape, w, inv).1.Done?
    decreases |inv|
  {
    if inv != [] {
      ProbeAllCompletes(tape, if inv[0].managed then Ask(tape, w).0 else w, inv[1..]);
    }
  }

  /** Once its generations are prepared, an undisturbed apply succeeds. */
  lemma InstallCompletes(tape: Tape, w: World, plans: seq<Mount>, inv: Inventory, managed: set<string>, first: nat)
    requires Planned(w, plans, managed, first) && forall t :: t >= w.clock ==> tape(t).verdict.Succeed?
    ensures Install(tape, w, plans, inv).1.Done?
  {
    hide Good, MountAll, VerifyAll, ProbeAll;
    forall m | m in plans ensures m.gen < |w.gens| && Good(w.gens[m.gen], m.spot.1, managed) {
      assert Prepared(w, m, managed, first);
    }
    MountAllCompletes(tape, w, plans, plans, managed);
    var w1 := MountAll(tape, w, plans).0;
    VerifyAllCompletes(tape, w1, plans, managed);
    ProbeAllCompletes(tape, VerifyAll(tape, w1, plans).0, inv);
  }

  lemma {:induction false} PlanTrustLocal(a: Tape, b: Tape, w: World, certs: seq<Cert>, spots: seq<Spot>,
                                          prepared: map<string, nat>, plans: seq<Mount>)
    requires forall t :: t >= w.clock ==> a(t) == b(t)
    ensures PlanTrust(a, w, certs, spots, prepared, plans) == PlanTrust(b, w, certs, spots, prepared, plans)
    decreases |spots|
  {
    hide Named, Regular, ValidCerts;
    if spots != [] {
      var s := spots[0];
      if |Stack(w, s)| < LAYER_LIMIT && (Stack(w, s) == [] || OwnedTop(w, s)) {
        if s.1 in prepared {
          PlanTrustLocal(a, b, w, certs, spots[1..], prepared, plans + [Mount(s, prepared[s.1])]);
        } else {
          var (next, exit) := NewGeneration(a, w, s, certs);
          if exit.Done? {
            PlanTrustLocal(a, b, next, certs, spots[1..], prepared[s.1 := |w.gens|], plans + [Mount(s, |w.gens|)]);
          }
        }
      }
    }
  }

  /** There is room for another generation, and the stores can be copied. */
  predicate Room(w: World, spots: seq<Spot>) {
    forall s :: s in spots ==> |Stack(w, s)| < LAYER_LIMIT && Regular(Store(w, s.1))
  }

  lemma CanPrepare(w: World, s: Spot, certs: seq<Cert>) returns (c: Choice)
    requires Healthy(w) && Regular(Store(w, s.1)) && ValidCerts(certs)
    ensures c.verdict.Succeed?
    ensures forall tape: Tape :: tape(w.clock) == c ==> NewGeneration(tape, w, s, certs).1.Done?
    ensures forall a: Tape, b: Tape :: a(w.clock) == b(w.clock) ==> NewGeneration(a, w, s, certs) == NewGeneration(b, w, s, certs)
  {
    hide Named, Regular, ValidCerts;
    HealthyBase(w, s);
    var orders := CanName(Store(w, s.1), certs, |certs|);
    c := Choice(Succeed, orders);
  }

  /** Planning on a healthy world with room succeeds when nothing fails: there are
      orders of visiting the names with which it does. */
  lemma {:induction false} CanPlan(w: World, certs: seq<Cert>, spots: seq<Spot>, prepared: map<string, nat>, plans: seq<Mount>)
    returns (tape: Tape)
    requires Healthy(w) && Room(w, spots) && ValidCerts(certs)
    ensures (forall t :: tape(t).verdict.Succeed?) && PlanTrust(tape, w, certs, spots, prepared, plans).1.Done?
    decreases |spots|
  {
    hide Healthy, Regular, ValidCerts, NewGeneration;
    tape := (t: nat) => Choice(Succeed, []);
    if spots != [] {
      var s := spots[0];
      assert s in spots && forall x :: x in spots[1..] ==> x in spots;
      HealthySpot(w, s);
      assert Stack(w, s) != [] ==> OwnedTop(w, s);
      if s.1 in prepared {
        tape := CanPlan(w, certs, spots[1..], prepared, plans + [Mount(s, prepared[s.1])]);
      } else {
        var c := CanPrepare(w, s, certs);
        var now: Tape := (t: nat) => c;
        NewGenerationHealthy(now, w, s, certs);
        NewGenerationGood(now, w, s, certs);
        var next := NewGeneration(now, w, s, certs).0;
        assert next.clock == w.clock + 1 by { GenerationTicks(now, w, s, certs); }
        assert Room(next, spots[1..]) by { assert forall x :: Stack(next, x) == Stack(w, x) && Store(next, x.1) == Store(w, x.1); }
        var later := CanPlan(next, certs, spots[1..], prepared[s.1 := |w.gens|], plans + [Mount(s, |w.gens|)]);
        tape := (t: nat) => if t == w.clock then c else later(t);
        PlanTrustLocal(tape, later, next, certs, spots[1..], prepared[s.1 := |w.gens|], plans + [Mount(s, |w.gens|)]);
        assert NewGeneration(tape, w, s, certs) == NewGeneration(now, w, s, certs);
      }
    }
  }

  lemma GenerationTicks(tape: Tape, w: World, s: Spot, certs: seq<Cert>)
    ensures var next := NewGeneration(tape, w, s, certs).0;
      next.clock == w.clock + 1 && next.stacks == w.stacks && next.record == w.record
  {
  }

  lemma {:induction false} PlanTicks(tape: Tape, w: World, certs: seq<Cert>, spots: seq<Spot>, prepared: map<string, nat>, plans: seq<Mount>)
    ensures PlanTrust(tape, w, certs, spots, prepared, plans).0.clock >= w.clock
    decreases |spots|
  {
    hide NewGeneration;
    if spots != [] {
      var s := spots[0];
      if s.1 in prepared {
        PlanTicks(tape, w, certs, spots[1..], prepared, plans + [Mount(s, prepared[s.1])]);
      } else {
        var next := NewGeneration(tape, w, s, certs).0;
        GenerationTicks(tape, w, s, certs);
        PlanTicks(tape, next, certs, spots[1..], prepared[s.1 := |w.gens|], plans + [Mount(s, |w.gens|)]);
      }
    }
  }

  /** An apply of any valid inventory succeeds on a healthy world with room when
      nothing fails. */
  lemma ApplyCanComplete(w: World, spots: seq<Spot>, inv: Inventory) returns (tape: Tape)
    requires Healthy(w) && Room(w, spots) && ValidCerts(ManagedCerts(inv))
    ensures (forall t :: tape(t).verdict.Succeed?) && Apply(tape, w, spots, inv).1.Done?
  {
    hide Regular, ValidCerts, PlanTrust, Install, Remove, Planned, Cached, Faithful, Room;
    var certs := ManagedCerts(inv);
    var w1 := w.(clock := w.clock + 1);
    assert SameStacks(w, w1);
    assert Healthy(w1) by { TrimmedHealthy(w, w1); }
    assert Room(w1, spots) by { RoomStays(w, w1, spots); }
    tape := CanPlan(w1, certs, spots, map[], []);
    assert Ask(tape, w) == (w1, Done);
    var (w2, planned, plans) := if certs == [] then (w1, Done, []) else PlanTrust(tape, w1, certs, spots, map[], []);
    NothingPlanned(w1, Ids(certs), |w.gens|);
    PlanTrustPlans(tape, w1, certs, spots, map[], [], |w.gens|);
    PlanTrustHealthy(tape, w1, certs, spots, map[], []);
    PlanTicks(tape, w1, certs, spots, map[], []);
    if plans == [] {
      RemoveCompletes(tape, w2, spots);
    } else {
      var w3 := SaveMounts(tape, w2, plans).0;
      assert Planned(w3, plans, Ids(certs), |w.gens|) by {
        PlannedSame(w2, w3, plans, Ids(certs), |w.gens|);
      }
      InstallCompletes(tape, w3, plans, inv, Ids(certs), |w.gens|);
    }
  }

  lemma RoomStays(w: World, next: World, spots: seq<Spot>)
    requires Room(w, spots) && next.stacks == w.stacks && next.store == w.store
    ensures Room(next, spots)
  {
    assert forall s :: Stack(next, s) == Stack(w, s) && Store(next, s.1) == Store(w, s.1);
  }

  lemma PlannedSame(w: World, next: World, plans: seq<Mount>, managed: set<string>, first: nat)
    requires Planned(w, plans, managed, first) && next.stacks == w.stacks && next.gens == w.gens
    ensures Planned(next, plans, managed, first)
  {
    forall m | m in plans ensures Prepared(next, m, managed, first) { assert Prepared(w, m, managed, first); }
  }

  // ---- what a success needs ----

  /** A spot under somebody else's mount, or with no room left. */
  predicate Blocked(w: World, s: Spot) {
    |Stack(w, s)| >= LAYER_LIMIT || (Stack(w, s) != [] && !OwnedTop(w, s))
  }

  lemma {:induction false} PlanRefuses(tape: Tape, w: World, certs: seq<Cert>, spots: seq<Spot>, prepared: map<string, nat>, plans: seq<Mount>)
    ensures PlanTrust(tape, w, certs, spots, prepared, plans).0.stacks == w.stacks
    ensures (exists s :: s in spots && Blocked(w, s)) ==> !PlanTrust(tape, w, certs, spots, prepared, plans).1.Done?
    decreases |spots|
  {
    if spots != [] {
      hide NewGeneration;
      var s := spots[0];
      assert forall x :: x in spots <==> x == s || x in spots[1..];
      if !Blocked(w, s) {
        if s.1 in prepared {
          PlanRefuses(tape, w, certs, spots[1..], prepared, plans + [Mount(s, prepared[s.1])]);
        } else {
          GenerationTicks(tape, w, s, certs);
          var next := NewGeneration(tape, w, s, certs).0;
          assert forall x :: Blocked(next, x) <==> Blocked(w, x);
          PlanRefuses(tape, next, certs, spots[1..], prepared[s.1 := |w.gens|], plans + [Mount(s, |w.gens|)]);
        }
      }
    }
  }

  /** Over a foreign mount, or on a full stack, nothing is mounted anywhere. */
  lemma BlockedSpotRefused(tape: Tape, w: World, spots: seq<Spot>, inv: Inventory)
    requires Managed(inv) != {} && exists s :: s in spots && Blocked(w, s)
    ensures var (next, exit) := Apply(tape, w, spots, inv);
      !exit.Done? && next.stacks == w.stacks && next.record == w.record
  {
    hide PlanTrust;
    ManagedIds(inv);
    var w1 := Ask(tape, w).0;
    assert forall s :: Blocked(w1, s) <==> Blocked(w, s);
    PlanRefuses(tape, w1, ManagedCerts(inv), spots, map[], []);
    PlanKeepsRecord(tape, w1, ManagedCerts(inv), spots, map[], []);
  }

  lemma {:induction false} PlanKeepsRecord(tape: Tape, w: World, certs: seq<Cert>, spots: seq<Spot>, prepared: map<string, nat>, plans: seq<Mount>)
    ensures PlanTrust(tape, w, certs, spots, prepared, plans).0.record == w.record
    decreases |spots|
  {
    if spots != [] {
      hide NewGeneration;
      var s := spots[0];
      if s.1 in prepared {
        PlanKeepsRecord(tape, w, certs, spots[1..], prepared, plans + [Mount(s, prepared[s.1])]);
      } else {
        GenerationTicks(tape, w, s, certs);
        PlanKeepsRecord(tape, NewGeneration(tape, w, s, certs).0, certs, spots[1..], prepared[s.1 := |w.gens|], plans + [Mount(s, |w.gens|)]);
      }
    }
  }

  lemma GenerationFits(tape: Tape, w: World, s: Spot, certs: seq<Cert>)
    requires NewGeneration(tape, w, s, certs).1.Done?
    ensures var gens := NewGeneration(tape, w, s, certs).0.gens;
      |gens| == |w.gens| + 1 && w.gens <= gens && Regular(gens[|w.gens|].base) && ValidCerts(certs)
  {
    hide Regular, ValidCerts, Named;
  }

  /** Planning succeeds only on stores of regular files alone, for valid certificates:
      every baseline it copied is such a store. */
  lemma {:induction false} PlanNeedsRegular(tape: Tape, w: World, certs: seq<Cert>, spots: seq<Spot>, prepared: map<string, nat>, plans: seq<Mount>)
    ensures var (next, exit, _) := PlanTrust(tape, w, certs, spots, prepared, plans);
      exit.Done? ==>
        && w.gens <= next.gens && (forall g :: |w.gens| <= g < |next.gens| ==> Regular(next.gens[g].base))
        && (|next.gens| > |w.gens| ==> ValidCerts(certs))
    decreases |spots|
  {
    if spots != [] {
      hide NewGeneration, Regular, ValidCerts;
      var s := spots[0];
      if s.1 in prepared {
        PlanNeedsRegular(tape, w, certs, spots[1..], prepared, plans + [Mount(s, prepared[s.1])]);
      } else {
        var (next, exit) := NewGeneration(tape, w, s, certs);
        if exit.Done? {
          GenerationFits(tape, w, s, certs);
          PlanNeedsRegular(tape, next, certs, spots[1..], prepared[s.1 := |w.gens|], plans + [Mount(s, |w.gens|)]);
        }
      }
    }
  }

  /** The mount is on top and shows each of its certificates under its name. */
  predicate InPlace(w: World, m: Mount) {
    && OnTop(w, m) && m.gen < |w.gens|
    && forall id :: id in w.gens[m.gen].files ==>
         var name := w.gens[m.gen].files[id];
         name in w.gens[m.gen].live && w.gens[m.gen].live[name] == Certificate(id)
  }

  lemma {:induction false} VerifiedInPlace(tape: Tape, w: World, plans: seq<Mount>)
    ensures var (next, exit) := VerifyAll(tape, w, plans);
      next == w.(clock := next.clock) && (exit.Done? ==> forall m :: m in plans ==> InPlace(w, m))
    decreases |plans|
  {
    if plans != [] {
      var next := Verify(tape, w, plans[0]).0;
      VerifiedInPlace(tape, next, plans[1..]);
      assert forall m :: InPlace(next, m) ==> InPlace(w, m);
      assert forall m :: m in plans ==> m == plans[0] || m in plans[1..];
    }
  }

  lemma {:induction false} MountAllAnswers(tape: Tape, w: World, plans: seq<Mount>)
    ensures var (next, exit) := MountAll(tape, w, plans);
      exit.Done? ==> next.clock >= w.clock && CalmFrom(tape, w.clock, next.clock)
    decreases |plans|
  {
    if plans != [] {
      if OnTop(w, plans[0]) {
        MountAllAnswers(tape, w, plans[1..]);
      } else {
        var w1 := Push(tape, w, plans[0]).0;
        MountAllAnswers(tape, Verify(tape, w1, plans[0]).0, plans[1..]);
      }
    }
  }

  lemma {:induction false} VerifyAllAnswers(tape: Tape, w: World, plans: seq<Mount>)
    ensures var (next, exit) := VerifyAll(tape, w, plans);
      exit.Done? ==> next.clock == w.clock + |plans| && CalmFrom(tape, w.clock, next.clock)
    decreases |plans|
  {
    if plans != [] { VerifyAllAnswers(tape, Verify(tape, w, plans[0]).0, plans[1..]); }
  }

  lemma {:induction false} ProbeAllAnswers(tape: Tape, w: World, inv: Inventory)
    ensures var (next, exit) := ProbeAll(tape, w, inv);
      exit.Done? ==> next.clock == w.clock + |ManagedCerts(inv)| && CalmFrom(tape, w.clock, next.clock)
    decreases |inv|
  {
    if inv != [] { ProbeAllAnswers(tape, if inv[0].managed then Ask(tape, w).0 else w, inv[1..]); }
  }

  /** An installation passes for done only if every command, one verification of
      every mount and one probe of every managed certificate succeeded. */
  lemma InstallNeedsAnswers(tape: Tape, w: World, plans: seq<Mount>, inv: Inventory)
    ensures var (next, exit) := Install(tape, w, plans, inv);
      exit.Done? ==>
        && next.clock >= w.clock + |plans| + |ManagedCerts(inv)| && CalmFrom(tape, w.clock, next.clock)
        && forall m :: m in plans ==> InPlace(next, m)
  {
    hide MountAll, VerifyAll, ProbeAll, ManagedCerts;
    MountAllAnswers(tape, w, plans);
    var w1 := MountAll(tape, w, plans).0;
    VerifyAllAnswers(tape, w1, plans);
    VerifiedInPlace(tape, w1, plans);
    var w2 := VerifyAll(tape, w1, plans).0;
    ProbeAllAnswers(tape, w2, inv);
    ProbeAllMeans(tape, w2, inv);
    assert forall m :: InPlace(w1, m) ==> InPlace(ProbeAll(tape, w2, inv).0, m);
  }

  // ---- the saved inventory and what applications see ----

  ghost predicate Agrees(w: World, spots: seq<Spot>) {
    forall s :: s in spots ==> Shows(w, s, Managed(w.inventory))
  }

  /** A success saves what it shows. */
  lemma CommitAgrees(tape: Tape, w: World, spots: seq<Spot>, inv: Inventory)
    requires Healthy(w)
    ensures var (next, exit) := Commit(tape, w, spots, inv);
      && (exit.Done? ==> next.inventory == inv && Agrees(next, spots))
      && (!exit.Done? && !exit.Crashed? ==> next.inventory == w.inventory)
  {
    hide Apply, Extends, Healthy;
    ApplyHealthy(tape, w, spots, inv);
    ApplyShows(tape, w, spots, inv);
    var (w1, applied) := Apply(tape, w, spots, inv);
    if applied.Done? {
      var (w2, saved) := SaveInventory(tape, w1, inv);
      SavedHealthy(w1, w2);
      if saved.Done? {
        forall s | s in spots ensures Shows(w2, s, Managed(inv)) { ShowsStays(w1, w2, s, Managed(inv)); }
      }
      if saved.Failed? { ApplyHealthy(tape, w2, spots, w.inventory); }
    }
  }

  lemma ShowsStays(w: World, next: World, s: Spot, managed: set<string>)
    requires Healthy(w) && Shows(w, s, managed) && next.store == w.store && w.gens <= next.gens && Stack(next, s) == Stack(w, s)
    ensures Shows(next, s, managed)
  {
    hide Extends;
    assert OwnStack(w, s);
    assert Visible(next, s) == Visible(w, s);
    var files :| Extends(Store(w, s.1), managed, Visible(w, s), files);
    assert Extends(Store(next, s.1), managed, Visible(next, s), files);
  }

  /** What the lowest k layers at s show. */
  ghost predicate LowerShows(w: World, s: Spot, k: nat, managed: set<string>)
    requires k <= |Stack(w, s)|
  {
    exists files :: Extends(Store(w, s.1), managed, Through(w, s.1, Stack(w, s)[..k]), files)
  }

  /** Every layer we might stop at shows the same managed certificates. */
  ghost predicate Uniform(w: World, spots: seq<Spot>, managed: set<string>) {
    forall s, k :: s in spots && 0 <= k <= |Stack(w, s)| ==> LowerShows(w, s, k, managed)
  }

  /** A failure that is reported, and not as an incomplete rollback, leaves the
      stores showing the saved inventory, whatever happened. */
  ghost predicate FailsSafely(w: World, spots: seq<Spot>, inv: Inventory) {
    forall tape: Tape {:trigger Commit(tape, w, spots, inv)} ::
      (Commit(tape, w, spots, inv).1.Failed? || Commit(tape, w, spots, inv).1.Unsaved?) ==> Agrees(Commit(tape, w, spots, inv).0, spots)
  }

  lemma CompensationAgrees(tape: Tape, w: World, spots: seq<Spot>, inv: Inventory)
    requires Healthy(w) && Apply(tape, w, spots, inv).1.Done?
    ensures var (next, exit) := Commit(tape, w, spots, inv);
      exit.Failed? || exit.Unsaved? ==> Agrees(next, spots)
  {
    hide Apply, Extends, Healthy, Shows;
    ApplyHealthy(tape, w, spots, inv);
    var (w1, applied) := Apply(tape, w, spots, inv);
    var (w2, saved) := SaveInventory(tape, w1, inv);
    SavedHealthy(w1, w2);
    if saved.Failed? {
      ApplyHealthy(tape, w2, spots, w.inventory);
      ApplyShows(tape, w2, spots, w.inventory);
    }
  }

  lemma InstallFailsSafely(tape: Tape, w: World, spots: seq<Spot>, inv: Inventory)
    requires Healthy(w) && Agrees(w, spots) && Managed(inv) != {}
    ensures var (next, exit) := Commit(tape, w, spots, inv);
      exit.Failed? || exit.Unsaved? ==> Agrees(next, spots)
  {
    hide Apply, Extends, Shows;
    var (w1, applied) := Apply(tape, w, spots, inv);
    if applied.Done? {
      CompensationAgrees(tape, w, spots, inv);
    } else if spots != [] {
      assert Known(w) by { assert forall s :: OwnStack(w, s); }
      ApplyAllOrNothing(tape, w, spots, inv);
      if applied.Failed? || applied.Unsaved? {
        forall s | s in spots ensures Shows(w1, s, Managed(w1.inventory)) { ShowsStays(w, w1, s, Managed(w.inventory)); }
      }
    }
  }

  lemma LowerIsShown(w: World, next: World, s: Spot, k: nat, managed: set<string>)
    requires k <= |Stack(w, s)| && Stack(next, s) == Stack(w, s)[..k] && SameRest(w, next)
    ensures Shows(next, s, managed) <==> LowerShows(w, s, k, managed)
  {
    hide Extends;
    var dir := Through(w, s.1, Stack(w, s)[..k]);
    assert Visible(next, s) == dir;
    if files :| Extends(Store(w, s.1), managed, dir, files) {
      assert Extends(Store(next, s.1), managed, Visible(next, s), files);
    }
    if files :| Extends(Store(next, s.1), managed, Visible(next, s), files) {
      assert Extends(Store(w, s.1), managed, dir, files);
    }
  }

  lemma UniformFailsSafely(tape: Tape, w: World, spots: seq<Spot>, inv: Inventory)
    requires Healthy(w) && Uniform(w, spots, Managed(w.inventory)) && Managed(inv) == {}
    ensures var (next, exit) := Commit(tape, w, spots, inv);
      exit.Failed? || exit.Unsaved? ==> Agrees(next, spots)
  {
    hide Apply, Extends;
    var (w1, applied) := Apply(tape, w, spots, inv);
    if applied.Done? {
      CompensationAgrees(tape, w, spots, inv);
    } else {
      ApplyNothing(tape, w, spots, inv);
      forall s | s in spots ensures Shows(w1, s, Managed(w1.inventory)) {
        var k := |Stack(w1, s)|;
        assert Stack(w1, s) <= Stack(w, s);
        assert Stack(w1, s) == Stack(w, s)[..k];
        assert LowerShows(w, s, k, Managed(w.inventory));
        LowerIsShown(w, w1, s, k, Managed(w.inventory));
      }
    }
  }

  // ---- and it can stop at any layer ----

  function StopTape(stop: nat): Tape {
    (t: nat) => Choice(if t < stop then Succeed else Fail(false), [])
  }

  /** From the stop on nothing is popped any more. */
  lemma {:induction false} PopAllStopped(stop: nat, w: World, spots: seq<Spot>)
    requires w.clock >= stop
    ensures var (next, exit) := PopAll(StopTape(stop), w, spots);
      next.stacks == w.stacks && SameRest(w, next) && (exit.Failed? || (exit.Done? && next == w))
    decreases |spots|
  {
    if spots != [] && !OwnedTop(w, spots[0]) { PopAllStopped(stop, w, spots[1..]); }
  }

  lemma PopSpotStops(stop: nat, w: World, s: Spot, k: nat)
    requires OwnStack(w, s) && |Stack(w, s)| <= LAYER_LIMIT && 0 < k <= |Stack(w, s)| && stop == w.clock + |Stack(w, s)| - k
    ensures var (next, exit) := PopSpot(StopTape(stop), w, s, 0);
      exit.Failed? && Stack(next, s) == Stack(w, s)[..k] && SameRest(w, next)
  {
    hide PopSpot, Pop;
    var n := |Stack(w, s)| - k;
    PopSpotCalm(StopTape(stop), w, s, 0, n);
    var mid := Popped(w, s, n);
    assert Stack(mid, s) == Stack(w, s)[..k];
    assert Stack(w, s)[k - 1].Owned?;
    PopSpotFails(stop, mid, s, n);
  }

  lemma PopSpotFails(stop: nat, w: World, s: Spot, i: nat)
    requires OwnedTop(w, s) && w.clock >= stop && i < POP_LIMIT
    ensures var (next, exit) := PopSpot(StopTape(stop), w, s, i);
      exit.Failed? && next.stacks == w.stacks && SameRest(w, next)
  {
  }

  lemma {:induction false} CanStop(w: World, spots: seq<Spot>, s: Spot, k: nat) returns (stop: nat)
    requires Healthy(w) && s in spots && k < |Stack(w, s)|
    ensures stop >= w.clock
    ensures var (next, exit) := PopAll(StopTape(stop), w, spots);
      && Stack(next, s) == Stack(w, s)[..k] && SameRest(w, next)
      && (exit.Failed? || (exit.Done? && next.clock == stop))
    decreases |spots|
  {
    hide Healthy;
    var first := spots[0];
    HealthySpot(w, first);
    var h := |Stack(w, first)|;
    var mid := Popped(w, first, h);
    PoppedHealthy(w, first, h);
    if first == s {
      stop := w.clock + h - k;
      if k > 0 {
        PopSpotStops(stop, w, s, k);
      } else {
        PopSpotClears(StopTape(stop), w, s);
        PopAllStopped(stop, mid, spots[1..]);
      }
    } else {
      stop := CanStop(mid, spots[1..], s, k);
      PopSpotClears(StopTape(stop), w, first);
    }
  }

  lemma CommitCanStop(w: World, spots: seq<Spot>, inv: Inventory, s: Spot, k: nat) returns (tape: Tape)
    requires Healthy(w) && Managed(inv) == {} && s in spots && k < |Stack(w, s)|
    ensures var (next, exit) := Commit(tape, w, spots, inv);
      exit.Failed? && Stack(next, s) == Stack(w, s)[..k] && SameRest(w, next)
  {
    hide PopAll;
    var w2 := w.(clock := w.clock + 2);
    assert SameStacks(w, w2);
    assert Healthy(w2) by { TrimmedHealthy(w, w2); }
    var stop := CanStop(w2, spots, s, k);
    tape := StopTape(stop);
    var w1 := Ask(tape, w).0;
    assert Ask(tape, w1) == (w2, Done);
    var (next, popped) := PopAll(tape, w2, spots);
    ManagedIds(inv);
    assert Remove(tape, w1, spots).1.Failed?;
    assert Apply(tape, w, spots, inv) == Remove(tape, w1, spots);
    assert Commit(tape, w, spots, inv) == Remove(tape, w1, spots);
  }

  /** A rejected change is harmless in every run exactly when it manages some
      certificate, or every layer under every store shows what is saved: the
      change that manages nothing pops layers and has no rollback. */
  lemma FailsSafelyExactly(w: World, spots: seq<Spot>, inv: Inventory)
    requires Healthy(w) && Agrees(w, spots)
    ensures FailsSafely(w, spots, inv) <==> Managed(inv) != {} || Uniform(w, spots, Managed(w.inventory))
  {
    hide Commit, Extends, Healthy, Agrees;
    if Managed(inv) != {} {
      forall tape: Tape ensures (Commit(tape, w, spots, inv).1.Failed? || Commit(tape, w, spots, inv).1.Unsaved?)
        ==> Agrees(Commit(tape, w, spots, inv).0, spots) { InstallFailsSafely(tape, w, spots, inv); }
    } else if Uniform(w, spots, Managed(w.inventory)) {
      forall tape: Tape ensures (Commit(tape, w, spots, inv).1.Failed? || Commit(tape, w, spots, inv).1.Unsaved?)
        ==> Agrees(Commit(tape, w, spots, inv).0, spots) { UniformFailsSafely(tape, w, spots, inv); }
    } else {
      var s, k :| s in spots && 0 <= k <= |Stack(w, s)| && !LowerShows(w, s, k, Managed(w.inventory));
      WholeShows(w, spots, s);
      var tape := CommitCanStop(w, spots, inv, s, k);
      LowerDisagrees(w, Commit(tape, w, spots, inv).0, spots, s, k);
    }
  }

  lemma WholeShows(w: World, spots: seq<Spot>, s: Spot)
    requires Agrees(w, spots) && s in spots
    ensures LowerShows(w, s, |Stack(w, s)|, Managed(w.inventory))
  {
    assert Stack(w, s)[..|Stack(w, s)|] == Stack(w, s);
    assert Shows(w, s, Managed(w.inventory));
  }

  lemma LowerDisagrees(w: World, next: World, spots: seq<Spot>, s: Spot, k: nat)
    requires s in spots && k <= |Stack(w, s)| && !LowerShows(w, s, k, Managed(w.inventory))
    requires Stack(next, s) == Stack(w, s)[..k] && SameRest(w, next)
    ensures !Agrees(next, spots)
  {
    LowerIsShown(w, next, s, k, Managed(w.inventory));
    assert !Shows(next, s, Managed(next.inventory));
  }

  /** One store, one certificate "ca", mounted and saved. */
  function OneCertificate(): World {
    World(map[(0, "cacerts") := [Owned(0)]], map["cacerts" := map[]], [OneGeneration()],
          Some([Mount((0, "cacerts"), 0)]), [Entry("ca", "1a2b3c4d", true)], 0)
  }

  function OneGeneration(): Generation {
    Generation("cacerts", map[], map["1a2b3c4d.0" := Certificate("ca")], map["ca" := "1a2b3c4d.0"])
  }

  lemma OneGenerationExtends()
    ensures var g := OneGeneration(); g.files.Keys == {"ca"} && Extends(g.base, {"ca"}, g.live, g.files)
  {
    var files := OneGeneration().files;
    assert files["ca"] == "1a2b3c4d.0";
    assert files.Values == {"1a2b3c4d.0"};
  }

  /** The smallest disagreement: its removal can fail and still be seen. */
  lemma LastRemovalCanDisagree()
    ensures var w := OneCertificate();
      Healthy(w) && Agrees(w, [(0, "cacerts")]) && !FailsSafely(w, [(0, "cacerts")], [Entry("ca", "1a2b3c4d", false)])
  {
    hide Extends, Commit;
    var w := OneCertificate();
    var s: Spot := (0, "cacerts");
    OneGenerationExtends();
    assert Faithful(w, OneGeneration());
    assert Healthy(w);
    var inv := [Entry("ca", "1a2b3c4d", false)];
    assert w.inventory[0] == Entry("ca", "1a2b3c4d", true) && inv[0] == Entry("ca", "1a2b3c4d", false);
    assert Managed(w.inventory) == {"ca"} && Managed(inv) == {};
    TopShows(w, s);
    assert !LowerShows(w, s, 0, {"ca"}) by { NothingShows(w, s); }
    assert 0 <= 0 <= |Stack(w, s)| && s in [s];
    assert !Uniform(w, [s], {"ca"});
    FailsSafelyExactly(w, [s], inv);
  }

  lemma NothingShows(w: World, s: Spot)
    requires Store(w, s.1) == map[]
    ensures !LowerShows(w, s, 0, {"ca"})
  {
    assert Through(w, s.1, []) == map[];
    assert Stack(w, s)[..0] == [];
  }
}
