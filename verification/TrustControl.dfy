/** cert_mount.go and cert_api.go as they run: loops over namespaces, targets and
    planned mounts, with rollback and compensation. */
module TrustControl {
  import opened Text
  import opened Naming
  import opened Trust

  lemma SpotsFrom(namespaces: seq<nat>, targets: seq<string>, i: nat)
    requires i < |namespaces|
    ensures Spots(namespaces[i..], targets) == Row(namespaces[i], targets) + Spots(namespaces[i + 1..], targets)
  {
    assert namespaces[i..][1..] == namespaces[i + 1..];
  }

  lemma PlanEnd(tape: Tape, w: World, certs: seq<Cert>, namespaces: seq<nat>, targets: seq<string>,
                prepared: map<string, nat>, plans: seq<Mount>)
    requires namespaces == []
    ensures PlanTrust(tape, w, certs, Spots(namespaces, targets), prepared, plans) == (w, Done, plans)
  {
  }

  lemma PlanNext(tape: Tape, w: World, certs: seq<Cert>, s: Spot, rest: seq<Spot>, prepared: map<string, nat>, plans: seq<Mount>)
    ensures PlanTrust(tape, w, certs, [s] + rest, prepared, plans) ==
      if |Stack(w, s)| >= LAYER_LIMIT || (Stack(w, s) != [] && !OwnedTop(w, s)) then (w, Failed, plans)
      else if s.1 in prepared then PlanTrust(tape, w, certs, rest, prepared, plans + [Mount(s, prepared[s.1])])
      else
        var (next, exit) := NewGeneration(tape, w, s, certs);
        if !exit.Done? then (next, exit, plans)
        else PlanTrust(tape, next, certs, rest, prepared[s.1 := |w.gens|], plans + [Mount(s, |w.gens|)])
  {
    assert ([s] + rest)[1..] == rest;
  }

  lemma PopEnd(tape: Tape, w: World, namespaces: seq<nat>, targets: seq<string>)
    requires namespaces == []
    ensures PopAll(tape, w, Spots(namespaces, targets)) == (w, Done)
  {
  }

  lemma PopNext(tape: Tape, w: World, s: Spot, rest: seq<Spot>)
    ensures var (next, popped) := PopSpot(tape, w, s, 0);
      PopAll(tape, w, [s] + rest) == if popped.Done? then PopAll(tape, next, rest) else (next, popped)
  {
    assert ([s] + rest)[1..] == rest;
  }

  class TrustManager {
    const tape: Tape
    var w: World

    method MakeGeneration(s: Spot, certs: seq<Cert>) returns (exit: Exit)
      modifies this
      ensures (w, exit) == NewGeneration(tape, old(w), s, certs)
    {
      hide Named, ValidCerts, Extends;
      var c := tape(w.clock);
      var base := BaseOf(w, s);
      w := w.(clock := w.clock + 1);
      if c.verdict.Crash? {
        return Crashed;
      }
      if !Regular(base) || !ValidCerts(certs) {
        return Failed;
      }
      var names := Prepare(c.orders, base, certs);
      if names.None? || !c.verdict.Succeed? {
        return Failed;
      }
      w := w.(gens := w.gens + [Generation(s.1, base, names.value.live, names.value.files)]);
      exit := Done;
    }

    method Plan(namespaces: seq<nat>, targets: seq<string>, certs: seq<Cert>) returns (exit: Exit, plans: seq<Mount>)
      modifies this
      ensures (w, exit, plans) == PlanTrust(tape, old(w), certs, Spots(namespaces, targets), map[], [])
    {
      hide PlanTrust, Spots;
      plans, exit := [], Done;
      var prepared: map<string, nat> := map[];
      var i := 0;
      assert namespaces[0..] == namespaces;
      while i < |namespaces|
        invariant 0 <= i <= |namespaces| && exit == Done
        invariant PlanTrust(tape, old(w), certs, Spots(namespaces, targets), map[], [])
          == PlanTrust(tape, w, certs, Spots(namespaces[i..], targets), prepared, plans)
      {
        SpotsFrom(namespaces, targets, i);
        exit, prepared, plans := PlanNamespace(namespaces[i], targets, certs, prepared, plans, Spots(namespaces[i + 1..], targets));
        if !exit.Done? {
          return;
        }
        i := i + 1;
      }
      PlanEnd(tape, w, certs, namespaces[i..], targets, prepared, plans);
    }

    method PlanNamespace(ns: nat, targets: seq<string>, certs: seq<Cert>, cache: map<string, nat>, planned: seq<Mount>,
                         ghost later: seq<Spot>)
      returns (exit: Exit, prepared: map<string, nat>, plans: seq<Mount>)
      modifies this
      ensures PlanTrust(tape, old(w), certs, Row(ns, targets) + later, cache, planned)
        == if exit.Done? then PlanTrust(tape, w, certs, later, prepared, plans) else (w, exit, plans)
    {
      hide PlanTrust;
      exit, prepared, plans := Done, cache, planned;
      var j := 0;
      ghost var row := Row(ns, targets);
      assert row[0..] == row;
      while j < |targets|
        invariant 0 <= j <= |targets| && exit == Done
        invariant PlanTrust(tape, old(w), certs, row + later, cache, planned)
          == PlanTrust(tape, w, certs, row[j..] + later, prepared, plans)
      {
        var s := (ns, targets[j]);
        assert row[j..] + later == [s] + (row[j + 1..] + later);
        PlanNext(tape, w, certs, s, row[j + 1..] + later, prepared, plans);
        if |Stack(w, s)| >= LAYER_LIMIT {
          exit := Failed;
          return;
        }
        if Stack(w, s) != [] && !OwnedTop(w, s) {
          exit := Failed;
          return;
        }
        if s.1 in prepared {
          plans := plans + [Mount(s, prepared[s.1])];
        } else {
          var gen := |w.gens|;
          exit := MakeGeneration(s, certs);
          if !exit.Done? {
            return;
          }
          prepared := prepared[s.1 := gen];
          plans := plans + [Mount(s, gen)];
        }
        j := j + 1;
      }
      assert row[j..] + later == later;
    }

    method RollBack(plans: seq<Mount>, before: seq<Mount>) returns (exit: Exit)
      modifies this
      ensures (w, exit) == Rollback(tape, old(w), plans, |plans|, true, before)
    {
      var i := |plans|;
      var clean := true;
      while i > 0
        invariant 0 <= i <= |plans|
        invariant Rollback(tape, old(w), plans, |plans|, true, before) == Rollback(tape, w, plans, i, clean, before)
      {
        var m := plans[i - 1];
        if OnTop(w, m) {
          var popped;
          w, popped := Pop(tape, w, m.spot).0, Pop(tape, w, m.spot).1;
          if popped.Crashed? {
            return Crashed;
          }
          clean := clean && popped.Done?;
        }
        i := i - 1;
      }
      if !clean {
        return Incomplete;
      }
      var saved;
      w, saved := SaveMounts(tape, w, before).0, SaveMounts(tape, w, before).1;
      exit := match saved case Done => Failed case Crashed => Crashed case _ => Unsaved;
    }

    method MountPlans(plans: seq<Mount>, inv: Inventory) returns (exit: Exit)
      modifies this
      ensures (w, exit) == Install(tape, old(w), plans, inv)
    {
      exit := Done;
      var i := 0;
      assert plans[0..] == plans;
      while i < |plans|
        invariant 0 <= i <= |plans| && exit == Done
        invariant MountAll(tape, old(w), plans) == MountAll(tape, w, plans[i..])
      {
        var m := plans[i];
        assert plans[i..][0] == m && plans[i..][1..] == plans[i + 1..];
        if !OnTop(w, m) {
          w, exit := Push(tape, w, m).0, Push(tape, w, m).1;
          if !exit.Done? {
            return;
          }
          w, exit := Verify(tape, w, m).0, Verify(tape, w, m).1;
          if !exit.Done? {
            return;
          }
        }
        i := i + 1;
      }
      ghost var mounted := w;
      i := 0;
      while i < |plans|
        invariant 0 <= i <= |plans| && exit == Done
        invariant VerifyAll(tape, mounted, plans) == VerifyAll(tape, w, plans[i..])
      {
        assert plans[i..][0] == plans[i] && plans[i..][1..] == plans[i + 1..];
        w, exit := Verify(tape, w, plans[i]).0, Verify(tape, w, plans[i]).1;
        if !exit.Done? {
          return;
        }
        i := i + 1;
      }
      ghost var verified := w;
      i := 0;
      assert inv[0..] == inv;
      while i < |inv|
        invariant 0 <= i <= |inv| && exit == Done
        invariant ProbeAll(tape, verified, inv) == ProbeAll(tape, w, inv[i..])
      {
        assert inv[i..][0] == inv[i] && inv[i..][1..] == inv[i + 1..];
        if inv[i].managed {
          w, exit := Ask(tape, w).0, Ask(tape, w).1;
          if !exit.Done? {
            return;
          }
        }
        i := i + 1;
      }
    }

    method ApplyTrust(namespaces: seq<nat>, targets: seq<string>, inv: Inventory) returns (exit: Exit)
      modifies this
      ensures (w, exit) == Apply(tape, old(w), Spots(namespaces, targets), inv)
    {
      var before := Recorded(w);
      w, exit := Ask(tape, w).0, Ask(tape, w).1;
      if !exit.Done? {
        return;
      }
      var plans: seq<Mount> := [];
      if |ManagedCerts(inv)| > 0 {
        exit, plans := Plan(namespaces, targets, ManagedCerts(inv));
        if !exit.Done? {
          return;
        }
      }
      if |plans| == 0 {
        exit := RemoveTrust(namespaces, targets);
        return;
      }
      w, exit := SaveMounts(tape, w, plans).0, SaveMounts(tape, w, plans).1;
      if !exit.Done? {
        return;
      }
      exit := MountPlans(plans, inv);
      if !exit.Done? && !exit.Crashed? {
        exit := RollBack(plans, before);
      }
    }

    method RemoveTrust(namespaces: seq<nat>, targets: seq<string>) returns (exit: Exit)
      modifies this
      ensures (w, exit) == Remove(tape, old(w), Spots(namespaces, targets))
    {
      w, exit := Ask(tape, w).0, Ask(tape, w).1;
      if !exit.Done? {
        return;
      }
      hide PopAll, Spots;
      ghost var found := w;
      var i := 0;
      assert namespaces[0..] == namespaces;
      while i < |namespaces|
        invariant 0 <= i <= |namespaces| && exit == Done
        invariant PopAll(tape, found, Spots(namespaces, targets)) == PopAll(tape, w, Spots(namespaces[i..], targets))
      {
        SpotsFrom(namespaces, targets, i);
        exit := PopNamespace(namespaces[i], targets, Spots(namespaces[i + 1..], targets));
        if !exit.Done? {
          return;
        }
        i := i + 1;
      }
      PopEnd(tape, w, namespaces[i..], targets);
      w, exit := SaveMounts(tape, w, []).0, SaveMounts(tape, w, []).1;
    }

    method PopNamespace(ns: nat, targets: seq<string>, ghost later: seq<Spot>) returns (exit: Exit)
      modifies this
      ensures PopAll(tape, old(w), Row(ns, targets) + later) == if exit.Done? then PopAll(tape, w, later) else (w, exit)
    {
      hide PopAll;
      exit := Done;
      var j := 0;
      ghost var row := Row(ns, targets);
      assert row[0..] == row;
      while j < |targets|
        invariant 0 <= j <= |targets| && exit == Done
        invariant PopAll(tape, old(w), row + later) == PopAll(tape, w, row[j..] + later)
      {
        var s := (ns, targets[j]);
        assert row[j..] + later == [s] + (row[j + 1..] + later);
        PopNext(tape, w, s, row[j + 1..] + later);
        exit := PopOwned(s);
        if !exit.Done? {
          return;
        }
        j := j + 1;
      }
      assert row[j..] + later == later;
    }

    method PopOwned(s: Spot) returns (exit: Exit)
      modifies this
      ensures (w, exit) == PopSpot(tape, old(w), s, 0)
    {
      var i := 0;
      while OwnedTop(w, s)
        invariant 0 <= i <= POP_LIMIT
        invariant PopSpot(tape, old(w), s, 0) == PopSpot(tape, w, s, i)
        decreases POP_LIMIT - i
      {
        if i >= POP_LIMIT {
          return Failed;
        }
        w, exit := Pop(tape, w, s).0, Pop(tape, w, s).1;
        if !exit.Done? {
          return;
        }
        i := i + 1;
      }
      exit := Done;
    }

    method ChangeInventory(namespaces: seq<nat>, targets: seq<string>, inv: Inventory) returns (exit: Exit)
      modifies this
      ensures (w, exit) == Commit(tape, old(w), Spots(namespaces, targets), inv)
    {
      var before := w.inventory;
      exit := ApplyTrust(namespaces, targets, inv);
      if !exit.Done? {
        return;
      }
      w, exit := SaveInventory(tape, w, inv).0, SaveInventory(tape, w, inv).1;
      if exit.Failed? {
        var compensated := ApplyTrust(namespaces, targets, before);
        exit := match compensated case Done => Failed case Crashed => Crashed case _ => Incomplete;
      }
    }
  }
}
