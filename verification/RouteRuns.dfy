/** Whole histories of the capture routing: any number of starts and cleanups,
    each of which may die anywhere. */
module RouteRuns {
  import opened Text
  import opened Routes

  datatype Event = Begin(config: Config) | Clean

  /** One command line call after another; a crash ends only its own call. */
  function History(tape: Tape, s: State, events: seq<Event>): State
    decreases |events|
  {
    if events == [] then s
    else
      var next := match events[0]
        case Begin(config) => Start(tape, s, config).0
        case Clean => Cleanup(tape, s).0;
      History(tape, next, events[1..])
  }

  // ---- what a program can record ----

  /** Undos recorded before a bypass that does not parse stops the program. */
  function Reachable(acts: seq<Act>): set<Cmd>
    decreases |acts|
  {
    if acts == [] || acts[0] == Plain(BadBypass) then {}
    else (if acts[0].Plain? then {} else {acts[0].undo}) + Reachable(acts[1..])
  }

  predicate Parses(cidrs: seq<Option<string>>) {
    forall c :: c in cidrs ==> c.Some?
  }

  /** The bypass networks that get rules, in order, up to one that does not parse. */
  function Kept(cidrs: seq<Option<string>>, seen: set<string>): seq<string>
    decreases |cidrs|
  {
    if cidrs == [] || cidrs[0].None? then []
    else if cidrs[0].value in seen then Kept(cidrs[1..], seen)
    else [cidrs[0].value] + Kept(cidrs[1..], seen + {cidrs[0].value})
  }

  function Throws(s: seq<string>): set<Route> {
    set c | c in s :: Throw(c)
  }

  function PlannedRoutes(cidrs: seq<Option<string>>): set<Route> {
    {Default} + Throws(Kept(cidrs, {}))
  }

  /** The policies a start may come to add. */
  function PlannedPolicies(cidrs: seq<Option<string>>, ranges: seq<string>): set<string> {
    if Parses(cidrs) then set r | r in ranges else {}
  }

  function RouteUndos(undos: set<Cmd>): set<Route> {
    set u | u in undos && u.DelRoute? :: u.dest
  }

  function PolicyUndos(undos: set<Cmd>): set<string> {
    set u | u in undos && u.DelPolicy? :: u.range
  }

  lemma UndosOfUnion(a: set<Cmd>, b: set<Cmd>)
    ensures RouteUndos(a + b) == RouteUndos(a) + RouteUndos(b)
    ensures PolicyUndos(a + b) == PolicyUndos(a) + PolicyUndos(b)
  {
  }

  lemma UndosOfOne(u: Cmd)
    ensures RouteUndos({u}) == if u.DelRoute? then {u.dest} else {}
    ensures PolicyUndos({u}) == if u.DelPolicy? then {u.range} else {}
  {
    assert u.DelRoute? ==> u.dest in RouteUndos({u});
    assert u.DelPolicy? ==> u.range in PolicyUndos({u});
  }

  lemma UndosOfNone()
    ensures RouteUndos({}) == {} && PolicyUndos({}) == {}
  {
  }

  lemma ReachableNext(a: Act, rest: seq<Act>)
    requires a != Plain(BadBypass)
    ensures Reachable([a] + rest) == (if a.Plain? then {} else {a.undo}) + Reachable(rest)
    ensures !a.Plain? ==> RouteUndos(Reachable([a] + rest)) == RouteUndos({a.undo}) + RouteUndos(Reachable(rest))
    ensures !a.Plain? ==> PolicyUndos(Reachable([a] + rest)) == PolicyUndos({a.undo}) + PolicyUndos(Reachable(rest))
  {
    assert ([a] + rest)[1..] == rest;
    if !a.Plain? {
      UndosOfUnion({a.undo}, Reachable(rest));
      UndosOfOne(a.undo);
    }
  }

  lemma {:induction false} ReachableBypass(cidrs: seq<Option<string>>, seen: set<string>, rest: seq<Act>)
    ensures var undos, after := Reachable(BypassActs(cidrs, seen) + rest), if Parses(cidrs) then Reachable(rest) else {};
      && RouteUndos(undos) == Throws(Kept(cidrs, seen)) + RouteUndos(after)
      && PolicyUndos(undos) == PolicyUndos(after)
    decreases |cidrs|
  {
    hide Reachable;
    if cidrs == [] {
      assert [] + rest == rest;
    } else {
      assert forall c :: c in cidrs <==> c == cidrs[0] || c in cidrs[1..];
      if cidrs[0].Some? {
        var cidr := cidrs[0].value;
        if cidr in seen {
          ReachableBypass(cidrs[1..], seen, rest);
        } else {
          var more := BypassActs(cidrs[1..], seen + {cidr}) + rest;
          var a, b := Plain(InsertRule(Iptables, Bypass(cidr))), Journaled(AddRoute(Throw(cidr)), DelRoute(Throw(cidr)));
          ReachableNext(b, more);
          ReachableNext(a, [b] + more);
          assert BypassActs(cidrs, seen) + rest == [a] + ([b] + more);
          UndosOfOne(b.undo);
          ReachableBypass(cidrs[1..], seen + {cidr}, rest);
          var kept := Kept(cidrs[1..], seen + {cidr});
          assert Throws([cidr] + kept) == {Throw(cidr)} + Throws(kept);
          assert Parses(cidrs) == Parses(cidrs[1..]);
          assert Reachable(BypassActs(cidrs, seen) + rest) == Reachable([b] + more);
          assert Kept(cidrs, seen) == [cidr] + kept;
          assert RouteUndos(Reachable([b] + more)) == {Throw(cidr)} + RouteUndos(Reachable(more));
          assert PolicyUndos(Reachable([b] + more)) == PolicyUndos(Reachable(more));
        }
      } else {
        ReachableStops(rest);
        assert BypassActs(cidrs, seen) + rest == [Plain(BadBypass)] + rest;
        UndosOfNone();
      }
    }
  }

  lemma ReachableStops(rest: seq<Act>)
    ensures Reachable([Plain(BadBypass)] + rest) == {}
  {
  }

  lemma {:induction false} ReachableRanges(ranges: seq<string>)
    ensures RouteUndos(Reachable(RangesActs(ranges))) == {}
    ensures PolicyUndos(Reachable(RangesActs(ranges))) == set r | r in ranges
    decreases |ranges|
  {
    hide Reachable;
    if ranges == [] {
      ReachableNext(Plain(StartWatcher), []);
      assert [Plain(StartWatcher)] + [] == RangesActs(ranges);
      assert Reachable([]) == {} by { ReachableNone(); }
      UndosOfNone();
    } else {
      var r := ranges[0];
      ReachableRanges(ranges[1..]);
      var more := RangesActs(ranges[1..]);
      var a, b, c := Journaled(AddJump(Iptables, r), DelJump(Iptables, r)), Journaled(AddJump(Ip6tables, r), DelJump(Ip6tables, r)),
        Journaled(AddPolicy(r), DelPolicy(r));
      ReachableNext(c, more);
      ReachableNext(b, [c] + more);
      ReachableNext(a, [b] + ([c] + more));
      assert RangesActs(ranges) == [a] + ([b] + ([c] + more));
      UndosOfOne(a.undo);
      UndosOfOne(b.undo);
      UndosOfOne(c.undo);
      assert forall q :: q in ranges <==> q == r || q in ranges[1..];
    }
  }

  lemma ReachableNone()
    ensures Reachable([]) == {}
  {
  }

  lemma ReachableChain(tool: Tool, rest: seq<Act>)
    ensures RouteUndos(Reachable(ChainActs(tool) + rest)) == RouteUndos(Reachable(rest))
    ensures PolicyUndos(Reachable(ChainActs(tool) + rest)) == PolicyUndos(Reachable(rest))
  {
    hide Reachable;
    var make, note := Journaled(NewChain(tool), DropChain(tool)), Note(FlushChain(tool));
    UndosOfOne(make.undo);
    UndosOfOne(note.undo);
    if tool == Iptables {
      var a := Plain(AppendRule(tool, RejectUdp));
      ReachableNext(a, rest);
      ReachableNext(note, [a] + rest);
      ReachableNext(make, [note] + ([a] + rest));
      assert ChainActs(tool) + rest == [make] + ([note] + ([a] + rest));
    } else {
      var a, b := Plain(AppendRule(tool, ReturnLoopback)), Plain(AppendRule(tool, RejectAll));
      ReachableNext(b, rest);
      ReachableNext(a, [b] + rest);
      ReachableNext(note, [a] + ([b] + rest));
      ReachableNext(make, [note] + ([a] + ([b] + rest)));
      assert ChainActs(tool) + rest == [make] + ([note] + ([a] + ([b] + rest)));
    }
  }

  lemma ReachableProgram(cidrs: seq<Option<string>>, ranges: seq<string>)
    ensures RouteUndos(Reachable(Program(cidrs, ranges))) == PlannedRoutes(cidrs)
    ensures PolicyUndos(Reachable(Program(cidrs, ranges))) == PlannedPolicies(cidrs, ranges)
  {
    hide Reachable, ChainActs, BypassActs, RangesActs;
    var tail := BypassActs(cidrs, {}) + RangesActs(ranges);
    ReachableBypass(cidrs, {}, RangesActs(ranges));
    ReachableRanges(ranges);
    UndosOfNone();
    var route := Journaled(AddRoute(Default), DelRoute(Default));
    ReachableNext(route, tail);
    UndosOfOne(route.undo);
    ReachableChain(Ip6tables, [route] + tail);
    ReachableChain(Iptables, ChainActs(Ip6tables) + ([route] + tail));
  }

  function Elements(undo: seq<Cmd>): set<Cmd> {
    set u | u in undo
  }

  lemma {:induction false} RunActsNames(tape: Tape, s: State, undo: seq<Cmd>, acts: seq<Act>)
    requires s.journal == Some(undo)
    ensures var after := RunActs(tape, s, undo, acts).0;
      after.journal.Some? && Elements(after.journal.value) <= Elements(undo) + Reachable(acts)
    decreases |acts|
  {
    if acts != [] && acts[0] != Plain(BadBypass) {
      var a := acts[0];
      var recorded := if a.Plain? then undo else undo + [a.undo];
      var (s1, wrote) := if a.Plain? then (s, Done) else Write(tape, s, recorded);
      if wrote.Done? {
        var (s2, ran) := if a.Note? then (s1, Done) else RunCmd(tape, s1, a.act);
        if ran.Done? { RunActsNames(tape, s2, recorded, acts[1..]); }
      }
    }
  }

  // ---- every history ----

  /** Nothing that a start may come to create is already there. */
  predicate Free(foreign: Net, cidrs: seq<Option<string>>, ranges: seq<string>) {
    && foreign.chains == map[] && foreign.jumps == {}
    && PlannedRoutes(cidrs) !! foreign.routes
    && PlannedPolicies(cidrs, ranges) !! foreign.policies
  }

  predicate FreeFor(foreign: Net, config: Config) {
    config.Capture? ==> Free(foreign, config.cidrs, config.ranges)
  }

  predicate Harmless(s: State, foreign: Net) {
    Recorded(s, foreign) && (s.journal.Some? ==> Spared(s.journal.value, foreign) == foreign)
  }

  lemma SparedAll(undo: seq<Cmd>, foreign: Net, cidrs: seq<Option<string>>, ranges: seq<string>)
    requires Free(foreign, cidrs, ranges) && Elements(undo) <= Reachable(Program(cidrs, ranges))
    ensures Spared(undo, foreign) == foreign
  {
    hide Reachable, Program;
    ReachableProgram(cidrs, ranges);
    var undos := Reachable(Program(cidrs, ranges));
    assert forall u :: u in undo ==> u in Elements(undo) && u in undos;
    assert forall d :: DelRoute(d) in undo ==> DelRoute(d).dest in RouteUndos(undos);
    assert forall r :: DelPolicy(r) in undo ==> DelPolicy(r).range in PolicyUndos(undos);
    assert NamedRoutes(undo, foreign) == {} && NamedPolicies(undo, foreign) == {};
  }

  lemma StartHarmless(tape: Tape, s: State, config: Config, foreign: Net)
    requires Harmless(s, foreign) && FreeFor(foreign, config)
    ensures Harmless(Start(tape, s, config).0, foreign)
  {
    hide Covered, Replayable, Cleanup, RunActs, Program, Spared, Free, LooksFree, Reachable;
    var (s1, cleaned) := if s.journal.None? then (s, Done) else Cleanup(tape, s);
    if s.journal.Some? { CleanupHarmless(tape, s, foreign); CleanupDone(tape, s); }
    if cleaned.Done? && config.Capture? && LooksFree(tape, s1) {
      var (s2, wrote) := Write(tape, s1.(clock := s1.clock + 3), []);
      EmptyRecorded(s1, s2, foreign, config);
      if wrote.Done? {
        var acts := Program(config.cidrs, config.ranges);
        ProgramSound(config.cidrs, config.ranges);
        RunActsCovered(tape, s2, [], acts, foreign);
        RunActsNames(tape, s2, [], acts);
        var (s3, ran) := RunActs(tape, s2, [], acts);
        assert Elements([]) == {};
        SparedAll(s3.journal.value, foreign, config.cidrs, config.ranges);
        if ran.Failed? { CleanupHarmless(tape, s3, foreign); }
      }
    }
  }

  lemma EmptyRecorded(s: State, next: State, foreign: Net, config: Config)
    requires s.journal.None? && s.net == foreign && FreeFor(foreign, config) && config.Capture?
    requires next.net == s.net && (next.journal == s.journal || next.journal == Some([]))
    ensures Harmless(next, foreign)
  {
    assert NamedRoutes([], foreign) == {} && NamedPolicies([], foreign) == {};
  }

  lemma CleanupDone(tape: Tape, s: State)
    requires s.journal.Some?
    ensures Cleanup(tape, s).1.Done? ==> Cleanup(tape, s).0.journal.None?
  {
  }

  lemma CleanupHarmless(tape: Tape, s: State, foreign: Net)
    requires Harmless(s, foreign) && s.journal.Some?
    ensures Harmless(Cleanup(tape, s).0, foreign)
  {
    hide Covered, Replayable, Cleanup, Spared;
    CleanupSafe(tape, s, foreign);
  }

  predicate Spares(events: seq<Event>, foreign: Net) {
    forall e :: e in events && e.Begin? ==> FreeFor(foreign, e.config)
  }

  /** Through any starts, cleanups, failures and crashes the journal covers
      everything of ours in the kernel, and no foreign route or policy is missing. */
  lemma {:induction false} EveryHistoryCovered(tape: Tape, s: State, events: seq<Event>, foreign: Net)
    requires Harmless(s, foreign) && Spares(events, foreign)
    ensures Harmless(History(tape, s, events), foreign)
    ensures foreign.routes <= History(tape, s, events).net.routes && foreign.policies <= History(tape, s, events).net.policies
    decreases |events|
  {
    hide Start, Cleanup, FreeFor;
    if events != [] {
      hide Harmless;
      match events[0] {
        case Begin(config) => StartHarmless(tape, s, config, foreign);
        case Clean => if s.journal.Some? { CleanupHarmless(tape, s, foreign); } else { NothingToClean(tape, s); }
      }
      var next := match events[0]
        case Begin(config) => Start(tape, s, config).0
        case Clean => Cleanup(tape, s).0;
      assert forall e :: e in events[1..] ==> e in events;
      EveryHistoryCovered(tape, next, events[1..], foreign);
    } else {
      ForeignThere(s, foreign);
    }
  }

  lemma ForeignThere(s: State, foreign: Net)
    requires Harmless(s, foreign)
    ensures foreign.routes <= s.net.routes && foreign.policies <= s.net.policies
  {
    if s.journal.Some? {
      var undo := s.journal.value;
      assert forall d :: d in foreign.routes && DelRoute(d) in undo ==> d in NamedRoutes(undo, foreign);
      assert forall r :: r in foreign.policies && DelPolicy(r) in undo ==> r in NamedPolicies(undo, foreign);
    }
  }

  lemma NothingToClean(tape: Tape, s: State)
    requires s.journal.None?
    ensures Cleanup(tape, s).0 == s
  {
  }

  /** No journal is left and the network is the foreign one. */
  predicate Restored(s: State, foreign: Net) {
    s.journal.None? && s.net == foreign
  }

  /** A cleanup that meets no failure, whenever there is something to clean. */
  predicate CleansTo(tape: Tape, s: State, foreign: Net) {
    if s.journal.None? then Restored(s, foreign)
    else AllSucceed(tape, s.clock, s.clock + |s.journal.value| + 1) ==>
      Cleanup(tape, s).1.Done? && Restored(Cleanup(tape, s).0, foreign)
  }

  lemma HarmlessCleans(tape: Tape, s: State, foreign: Net)
    requires Harmless(s, foreign)
    ensures CleansTo(tape, s, foreign)
  {
    hide Covered, Replayable, Cleanup, Spared;
    if s.journal.Some? && AllSucceed(tape, s.clock, s.clock + |s.journal.value| + 1) {
      CleanupCompletes(tape, s, foreign);
    }
  }

  /** After every history one undisturbed cleanup restores the network exactly. */
  lemma EveryHistoryCleans(tape: Tape, s: State, events: seq<Event>, foreign: Net)
    requires Harmless(s, foreign) && Spares(events, foreign)
    ensures CleansTo(tape, History(tape, s, events), foreign)
  {
    hide Harmless, CleansTo;
    EveryHistoryCovered(tape, s, events, foreign);
    HarmlessCleans(tape, History(tape, s, events), foreign);
  }

  // ---- an undisturbed start ----

  /** The net, the recorded undos and whether every command was accepted. */
  function Progress(n: Net, acts: seq<Act>): (Net, seq<Cmd>, bool)
    decreases |acts|
  {
    if acts == [] then (n, [], true)
    else
      var a := acts[0];
      var u := if a.Plain? then [] else [a.undo];
      if a.Note? then
        var (m, v, ok) := Progress(n, acts[1..]);
        (m, u + v, ok)
      else if !Accepts(n, a.act) then (n, u, false)
      else
        var (m, v, ok) := Progress(Exec(n, a.act), acts[1..]);
        (m, u + v, ok)
  }

  ghost predicate CalmFrom(tape: Tape, from: nat) {
    forall t :: t >= from ==> tape(t).Succeed?
  }

  lemma {:induction false} RunActsProgress(tape: Tape, s: State, undo: seq<Cmd>, acts: seq<Act>)
    requires CalmFrom(tape, s.clock) && s.journal == Some(undo)
    ensures var (after, exit) := RunActs(tape, s, undo, acts);
      var (n, v, ok) := Progress(s.net, acts);
      after.net == n && after.journal == Some(undo + v) && after.clock >= s.clock && exit == if ok then Done else Failed
    decreases |acts|
  {
    hide Accepts;
    if acts == [] {
      assert undo + [] == undo;
    } else {
      var a := acts[0];
      var recorded := if a.Plain? then undo else undo + [a.undo];
      var u := if a.Plain? then [] else [a.undo];
      assert recorded == undo + u;
      var s1 := if a.Plain? then s else Write(tape, s, recorded).0;
      var s2 := if a.Note? then s1 else RunCmd(tape, s1, a.act).0;
      if a.Note? || Accepts(s.net, a.act) {
        RunActsProgress(tape, s2, recorded, acts[1..]);
        var v := Progress(s2.net, acts[1..]).1;
        assert undo + (u + v) == recorded + v;
      }
    }
  }

  lemma {:induction false} ProgressSplit(n: Net, first: seq<Act>, rest: seq<Act>)
    requires Progress(n, first).2
    ensures var (m, u, _) := Progress(n, first);
      var (k, v, ok) := Progress(m, rest);
      Progress(n, first + rest) == (k, u + v, ok)
    decreases |first|
  {
    if first == [] {
      assert [] + rest == rest;
      assert [] + Progress(n, rest).1 == Progress(n, rest).1;
    } else {
      var a := first[0];
      var m := if a.Note? then n else Exec(n, a.act);
      assert (first + rest)[1..] == first[1..] + rest;
      ProgressSplit(m, first[1..], rest);
      var u := if a.Plain? then [] else [a.undo];
      var v := Progress(m, first[1..]).1;
      var w := Progress(Progress(m, first[1..]).0, rest).1;
      assert u + (v + w) == u + v + w;
    }
  }

  function Reversed(s: seq<string>): seq<Rule> {
    if s == [] then [] else Reversed(s[1..]) + [Bypass(s[0])]
  }

  lemma {:induction false} KeptUnseen(cidrs: seq<Option<string>>, seen: set<string>)
    ensures forall c :: c in Kept(cidrs, seen) ==> c !in seen
    decreases |cidrs|
  {
    if cidrs != [] && cidrs[0].Some? {
      if cidrs[0].value in seen { KeptUnseen(cidrs[1..], seen); } else { KeptUnseen(cidrs[1..], seen + {cidrs[0].value}); }
    }
  }

  lemma BypassOne(n: Net, cidr: string, rest: seq<Act>)
    requires Iptables in n.chains
    ensures var added := n.(chains := n.chains[Iptables := [Bypass(cidr)] + n.chains[Iptables]], routes := n.routes + {Throw(cidr)});
      var (m, u, ok) := Progress(n, [Plain(InsertRule(Iptables, Bypass(cidr))), Journaled(AddRoute(Throw(cidr)), DelRoute(Throw(cidr)))] + rest);
      && DelRoute(Throw(cidr)) in u
      && (Throw(cidr) in n.routes ==> !ok)
      && (Throw(cidr) !in n.routes ==> (
        && ok == Progress(added, rest).2 && m == Progress(added, rest).0
        && forall c :: c in Progress(added, rest).1 ==> c in u))
  {
    hide Progress;
    var a, b := Plain(InsertRule(Iptables, Bypass(cidr))), Journaled(AddRoute(Throw(cidr)), DelRoute(Throw(cidr)));
    var n1 := Exec(n, a.act);
    ProgressNext(n1, b, rest);
    ProgressNext(n, a, [b] + rest);
    assert [a, b] + rest == [a] + ([b] + rest);
  }

  /** The bypass loop ends well exactly if every network parses and none of their
      routes is already there; it stops at one that is, its deletion recorded. */
  lemma {:induction false} BypassProgress(n: Net, cidrs: seq<Option<string>>, seen: set<string>)
    requires Iptables in n.chains
    ensures var (m, u, ok) := Progress(n, BypassActs(cidrs, seen));
      var kept := Throws(Kept(cidrs, seen));
      && ok == (Parses(cidrs) && kept !! n.routes)
      && (ok ==> m == n.(chains := n.chains[Iptables := Reversed(Kept(cidrs, seen)) + n.chains[Iptables]], routes := n.routes + kept))
      && (!(kept !! n.routes) ==> exists d :: d in n.routes && DelRoute(d) in u)
    decreases |cidrs|
  {
    hide Progress;
    if cidrs == [] {
      ProgressEnd(n);
      assert [] + n.chains[Iptables] == n.chains[Iptables];
      assert n.chains[Iptables := n.chains[Iptables]] == n.chains;
    } else if cidrs[0].None? {
      StopProgress(n);
      assert cidrs[0] in cidrs;
    } else {
      var cidr := cidrs[0].value;
      assert forall c :: c in cidrs <==> c == cidrs[0] || c in cidrs[1..];
      if cidr in seen {
        BypassProgress(n, cidrs[1..], seen);
      } else {
        var rest := BypassActs(cidrs[1..], seen + {cidr});
        BypassOne(n, cidr, rest);
        var kept := Kept(cidrs[1..], seen + {cidr});
        assert Throws([cidr] + kept) == {Throw(cidr)} + Throws(kept);
        if Throw(cidr) !in n.routes {
          var added := n.(chains := n.chains[Iptables := [Bypass(cidr)] + n.chains[Iptables]], routes := n.routes + {Throw(cidr)});
          BypassProgress(added, cidrs[1..], seen + {cidr});
          KeptUnseen(cidrs[1..], seen + {cidr});
          assert Throw(cidr) !in Throws(kept);
          assert ([cidr] + kept)[1..] == kept;
          assert Reversed([cidr] + kept) + n.chains[Iptables] == Reversed(kept) + ([Bypass(cidr)] + n.chains[Iptables]);
          assert n.routes + Throws([cidr] + kept) == added.routes + Throws(kept);
          if !(Throws(kept) !! n.routes) {
            BypassBlocked(n, cidr, cidrs[1..], seen + {cidr});
          }
        }
      }
    }
  }

  /** The route it stops at was there before the loop began. */
  lemma BypassBlocked(n: Net, cidr: string, cidrs: seq<Option<string>>, seen: set<string>)
    requires Iptables in n.chains && Throw(cidr) !in n.routes && cidr in seen
    requires var added := n.(chains := n.chains[Iptables := [Bypass(cidr)] + n.chains[Iptables]], routes := n.routes + {Throw(cidr)});
      exists d :: d in added.routes && DelRoute(d) in Progress(added, BypassActs(cidrs, seen)).1
    ensures var added := n.(chains := n.chains[Iptables := [Bypass(cidr)] + n.chains[Iptables]], routes := n.routes + {Throw(cidr)});
      exists d :: d in n.routes && DelRoute(d) in Progress(added, BypassActs(cidrs, seen)).1
  {
    var added := n.(chains := n.chains[Iptables := [Bypass(cidr)] + n.chains[Iptables]], routes := n.routes + {Throw(cidr)});
    var d :| d in added.routes && DelRoute(d) in Progress(added, BypassActs(cidrs, seen)).1;
    BypassRecords(added, cidrs, seen, DelRoute(d));
    KeptUnseen(cidrs, seen);
  }

  /** The bypass loop records only deletions of routes it adds. */
  lemma {:induction false} BypassRecords(n: Net, cidrs: seq<Option<string>>, seen: set<string>, c: Cmd)
    requires c in Progress(n, BypassActs(cidrs, seen)).1
    ensures exists k :: k in Kept(cidrs, seen) && c == DelRoute(Throw(k))
    decreases |cidrs|
  {
    if cidrs == [] {
      assert false;
    } else if cidrs[0].None? {
      StopProgress(n);
    } else {
      var cidr := cidrs[0].value;
      if cidr in seen {
        BypassRecords(n, cidrs[1..], seen, c);
      } else {
        var a, b := Plain(InsertRule(Iptables, Bypass(cidr))), Journaled(AddRoute(Throw(cidr)), DelRoute(Throw(cidr)));
        var rest := BypassActs(cidrs[1..], seen + {cidr});
        ProgressNext(Exec(n, a.act), b, rest);
        ProgressNext(n, a, [b] + rest);
        assert BypassActs(cidrs, seen) == [a] + ([b] + rest);
        if c == b.undo {
          assert cidr in Kept(cidrs, seen);
        } else {
          BypassRecords(Exec(Exec(n, a.act), b.act), cidrs[1..], seen + {cidr}, c);
        }
      }
    }
  }

  lemma StopProgress(n: Net)
    ensures Progress(n, [Plain(BadBypass)]) == (n, [], false)
  {
  }

  predicate Distinct(ranges: seq<string>) {
    forall i, j :: 0 <= i < j < |ranges| ==> ranges[i] != ranges[j]
  }

  function Jumps(ranges: seq<string>): set<(Tool, string)> {
    (set r | r in ranges :: (Iptables, r)) + (set r | r in ranges :: (Ip6tables, r))
  }

  lemma ProgressNext(n: Net, a: Act, rest: seq<Act>)
    requires a.Journaled? || a.Plain?
    ensures var u := if a.Plain? then [] else [a.undo];
      var (m, v, ok) := Progress(Exec(n, a.act), rest);
      Progress(n, [a] + rest) == if Accepts(n, a.act) then (m, u + v, ok) else (n, u, false)
  {
    assert ([a] + rest)[1..] == rest;
  }

  /** One range: two jumps, then the policy unless it is already there. */
  lemma RangeProgress(n: Net, r: string, rest: seq<Act>)
    requires Iptables in n.chains && Ip6tables in n.chains
    ensures var added := n.(jumps := n.jumps + {(Iptables, r), (Ip6tables, r)}, policies := n.policies + {r});
      var (m, u, ok) := Progress(n, RangeActs(r) + rest);
      && (r in n.policies ==> !ok && DelPolicy(r) in u)
      && (r !in n.policies ==> (
        && ok == Progress(added, rest).2 && m == Progress(added, rest).0
        && forall c :: c in Progress(added, rest).1 ==> c in u))
  {
    hide Progress;
    var a1 := Journaled(AddJump(Iptables, r), DelJump(Iptables, r));
    var a2 := Journaled(AddJump(Ip6tables, r), DelJump(Ip6tables, r));
    var a3 := Journaled(AddPolicy(r), DelPolicy(r));
    var n1 := Exec(n, a1.act);
    var n2 := Exec(n1, a2.act);
    ProgressNext(n2, a3, rest);
    ProgressNext(n1, a2, [a3] + rest);
    ProgressNext(n, a1, [a2] + ([a3] + rest));
    assert RangeActs(r) + rest == [a1] + ([a2] + ([a3] + rest));
    var added := n.(jumps := n.jumps + {(Iptables, r), (Ip6tables, r)}, policies := n.policies + {r});
    assert r !in n.policies ==> Exec(n2, a3.act) == added by {
      assert n.jumps + {(Iptables, r)} + {(Ip6tables, r)} == added.jumps;
    }
  }

  /** The range loop either installs everything or stops at a policy that is
      already there, having recorded its deletion. */
  lemma {:induction false} RangesProgress(n: Net, ranges: seq<string>)
    requires Iptables in n.chains && Ip6tables in n.chains && Distinct(ranges)
    ensures var (m, u, ok) := Progress(n, RangesActs(ranges));
      && ok == ((set r | r in ranges) !! n.policies)
      && (ok ==> m == n.(jumps := n.jumps + Jumps(ranges), policies := n.policies + set r | r in ranges))
      && (!ok ==> exists r :: r in ranges && r in n.policies && DelPolicy(r) in u)
    decreases |ranges|
  {
    hide Progress;
    if ranges == [] {
      assert Progress(n, RangesActs(ranges)) == (n, [], true) by { WatcherProgress(n); }
      assert n.jumps + Jumps([]) == n.jumps;
    } else {
      var r := ranges[0];
      RangeProgress(n, r, RangesActs(ranges[1..]));
      assert forall q :: q in ranges <==> q == r || q in ranges[1..];
      if r !in n.policies {
        var added := n.(jumps := n.jumps + {(Iptables, r), (Ip6tables, r)}, policies := n.policies + {r});
        assert Distinct(ranges[1..]);
        assert r !in ranges[1..];
        RangesProgress(added, ranges[1..]);
        assert added.jumps + Jumps(ranges[1..]) == n.jumps + Jumps(ranges);
        assert added.policies + (set q | q in ranges[1..]) == n.policies + set q | q in ranges;
      }
    }
  }

  lemma WatcherProgress(n: Net)
    ensures Progress(n, [Plain(StartWatcher)]) == (n, [], true)
  {
    var all := [Plain(StartWatcher)];
    assert all[1..] == [];
    assert Progress(n, []) == (n, [], true);
    assert [] + Progress(n, []).1 == [];
  }

  /** What an undisturbed start leaves in place: bypasses ahead of the reject. */
  function Installed(cidrs: seq<Option<string>>, ranges: seq<string>, foreign: Net): Net {
    Net(map[Iptables := Reversed(Kept(cidrs, {})) + [RejectUdp], Ip6tables := [ReturnLoopback, RejectAll]],
        Jumps(ranges), foreign.routes + PlannedRoutes(cidrs), foreign.policies + set r | r in ranges)
  }

  const BOTH_CHAINS: map<Tool, seq<Rule>> := map[Iptables := [RejectUdp], Ip6tables := [ReturnLoopback, RejectAll]]

  lemma ChainsProgress(n: Net)
    requires n.chains == map[]
    ensures var (m, u, ok) := Progress(n, ChainActs(Iptables) + ChainActs(Ip6tables));
      ok && m == n.(chains := BOTH_CHAINS)
  {
    hide Progress;
    ChainProgress(n, Iptables);
    var n4 := n.(chains := map[Iptables := [RejectUdp]]);
    ChainProgress(n4, Ip6tables);
    ProgressSplit(n, ChainActs(Iptables), ChainActs(Ip6tables));
  }

  lemma ProgressEnd(n: Net)
    ensures Progress(n, []) == (n, [], true)
  {
  }

  lemma ChainProgress(n: Net, tool: Tool)
    requires tool !in n.chains
    ensures var (m, u, ok) := Progress(n, ChainActs(tool));
      && ok && u == [DropChain(tool), FlushChain(tool)]
      && m == n.(chains := n.chains[tool := if tool == Iptables then [RejectUdp] else [ReturnLoopback, RejectAll]])
  {
    hide Progress;
    var m := Exec(n, NewChain(tool));
    if tool == Iptables {
      var a := Plain(AppendRule(tool, RejectUdp));
      ProgressEnd(Exec(m, a.act));
      ProgressNext(m, a, []);
      NoteProgress(m, FlushChain(tool), [a] + []);
      ProgressNext(n, Journaled(NewChain(tool), DropChain(tool)), [Note(FlushChain(tool))] + ([a] + []));
      assert ChainActs(tool) == [Journaled(NewChain(tool), DropChain(tool))] + ([Note(FlushChain(tool))] + ([a] + []));
      assert [] + [RejectUdp] == [RejectUdp];
    } else {
      var a := Plain(AppendRule(tool, ReturnLoopback));
      var b := Plain(AppendRule(tool, RejectAll));
      var m1 := Exec(m, a.act);
      ProgressEnd(Exec(m1, b.act));
      ProgressNext(m1, b, []);
      ProgressNext(m, a, [b] + []);
      NoteProgress(m, FlushChain(tool), [a] + ([b] + []));
      ProgressNext(n, Journaled(NewChain(tool), DropChain(tool)), [Note(FlushChain(tool))] + ([a] + ([b] + [])));
      assert ChainActs(tool) == [Journaled(NewChain(tool), DropChain(tool))] + ([Note(FlushChain(tool))] + ([a] + ([b] + [])));
      assert [] + [ReturnLoopback] + [RejectAll] == [ReturnLoopback, RejectAll];
    }
  }

  lemma NoteProgress(n: Net, undo: Cmd, rest: seq<Act>)
    ensures Progress(n, [Note(undo)] + rest) == (Progress(n, rest).0, [undo] + Progress(n, rest).1, Progress(n, rest).2)
  {
    assert ([Note(undo)] + rest)[1..] == rest;
  }

  /** With both chains free the program ends well exactly if the bypasses parse and
      no planned route or policy is there; it stops at one that is, its deletion
      recorded. */
  lemma ProgramProgress(cidrs: seq<Option<string>>, ranges: seq<string>, foreign: Net)
    requires Distinct(ranges) && foreign.chains == map[] && foreign.jumps == {}
    ensures var (m, u, ok) := Progress(foreign, Program(cidrs, ranges));
      && ok == (Parses(cidrs) && Free(foreign, cidrs, ranges))
      && (ok ==> m == Installed(cidrs, ranges, foreign))
      && (!Free(foreign, cidrs, ranges) ==> Spared(u, foreign) != foreign)
  {
    hide ChainActs, BypassActs, RangesActs, Progress, Spared;
    var chains := ChainActs(Iptables) + ChainActs(Ip6tables);
    var route := Journaled(AddRoute(Default), DelRoute(Default));
    var tail := BypassActs(cidrs, {}) + RangesActs(ranges);
    ChainsProgress(foreign);
    var (n1, u1, _) := Progress(foreign, chains);
    ProgressSplit(foreign, chains, [route] + tail);
    assert chains + ([route] + tail) == Program(cidrs, ranges);
    ProgressNext(n1, route, tail);
    var u := Progress(foreign, Program(cidrs, ranges)).1;
    if Default in foreign.routes {
      NamesRoute(u, foreign, Default);
    } else {
      var n2 := n1.(routes := n1.routes + {Default});
      BypassProgress(n2, cidrs, {});
      var (n3, u3, through) := Progress(n2, BypassActs(cidrs, {}));
      var kept := Throws(Kept(cidrs, {}));
      if !through {
        ProgressStops(n2, BypassActs(cidrs, {}), RangesActs(ranges));
        if !(kept !! n2.routes) {
          var d :| d in n2.routes && DelRoute(d) in u3;
          BypassRecords(n2, cidrs, {}, DelRoute(d));
          NamesRoute(u, foreign, d);
        }
      } else {
        ProgressSplit(n2, BypassActs(cidrs, {}), RangesActs(ranges));
        RangesProgress(n3, ranges);
        assert n3.jumps + Jumps(ranges) == Jumps(ranges);
        assert n3.routes == foreign.routes + PlannedRoutes(cidrs);
        if !((set r | r in ranges) !! foreign.policies) {
          var r :| r in ranges && r in n3.policies && DelPolicy(r) in Progress(n3, RangesActs(ranges)).1;
          NamesPolicy(u, foreign, r);
        }
      }
    }
  }

  lemma NamesRoute(undo: seq<Cmd>, foreign: Net, d: Route)
    requires d in foreign.routes && DelRoute(d) in undo
    ensures Spared(undo, foreign) != foreign
  {
    assert d in NamedRoutes(undo, foreign) && d !in Spared(undo, foreign).routes;
  }

  lemma NamesPolicy(undo: seq<Cmd>, foreign: Net, r: string)
    requires r in foreign.policies && DelPolicy(r) in undo
    ensures Spared(undo, foreign) != foreign
  {
    assert r in NamedPolicies(undo, foreign) && r !in Spared(undo, foreign).policies;
  }

  lemma {:induction false} ProgressStops(n: Net, first: seq<Act>, rest: seq<Act>)
    requires !Progress(n, first).2
    ensures Progress(n, first + rest) == Progress(n, first)
    decreases |first|
  {
    if first != [] {
      var a := first[0];
      assert (first + rest)[1..] == first[1..] + rest;
      if a.Note? { ProgressStops(n, first[1..], rest); }
      else if Accepts(n, a.act) { ProgressStops(Exec(n, a.act), first[1..], rest); }
    }
  }

  lemma UndisturbedProgram(tape: Tape, s: State, cidrs: seq<Option<string>>, ranges: seq<string>, foreign: Net)
    requires CalmFrom(tape, s.clock) && s.journal == Some([]) && s.net == foreign && Distinct(ranges)
    requires foreign.chains == map[] && foreign.jumps == {}
    ensures var (after, exit) := RunActs(tape, s, [], Program(cidrs, ranges));
      && after.journal.Some? && Recorded(after, foreign) && after.clock >= s.clock
      && (exit == if Parses(cidrs) && Free(foreign, cidrs, ranges) then Done else Failed)
      && (exit.Done? ==> after.net == Installed(cidrs, ranges, foreign))
      && (!Free(foreign, cidrs, ranges) ==> Spared(after.journal.value, foreign) != foreign)
  {
    hide Program, RunActs, Installed, Progress, Free, Spared;
    assert Recorded(s, foreign);
    ProgramSound(cidrs, ranges);
    RunActsCovered(tape, s, [], Program(cidrs, ranges), foreign);
    RunActsProgress(tape, s, [], Program(cidrs, ranges));
    ProgramProgress(cidrs, ranges, foreign);
    var u := Progress(s.net, Program(cidrs, ranges)).1;
    assert [] + u == u;
  }

  /** On a network that looks free to it, an undisturbed start installs exactly the
      plan on top of what is there, unless a planned policy is among that: then
      its own failure cleanup deletes the policy, which it never added. */
  lemma UndisturbedStart(tape: Tape, s: State, cidrs: seq<Option<string>>, ranges: seq<string>)
    requires CalmFrom(tape, s.clock) && s.journal.None? && Parses(cidrs) && Distinct(ranges)
    requires s.net == Net(map[], {}, {}, s.net.policies)
    ensures var (after, exit) := Start(tape, s, Capture(cidrs, ranges));
      if (set r | r in ranges) !! s.net.policies
      then exit.Done? && after.net == Installed(cidrs, ranges, s.net) && after.journal.Some?
      else exit.Failed? && after.journal.None? && after.net.policies < s.net.policies
  {
    hide Covered, Replayable, Cleanup, Program, RunActs, Installed, Recorded, Kept;
    var s2 := Write(tape, s.(clock := s.clock + 3), []).0;
    assert s2.journal == Some([]) && s2.net == s.net;
    UndisturbedProgram(tape, s2, cidrs, ranges, s.net);
    var (s3, ran) := RunActs(tape, s2, [], Program(cidrs, ranges));
    assert Free(s.net, cidrs, ranges) <==> (set r | r in ranges) !! s.net.policies;
    if ran.Failed? {
      CleanupCompletes(tape, s3, s.net);
      assert Start(tape, s, Capture(cidrs, ranges)) == (Cleanup(tape, s3).0, Failed);
      var left := Spared(s3.journal.value, s.net);
      assert left.routes == s.net.routes;
    } else {
      assert Start(tape, s, Capture(cidrs, ranges)) == (s3, ran);
    }
  }

  // ---- exactly when a start is reversible ----

  /** However the start ends, an undisturbed cleanup puts the network back. */
  ghost predicate Reversible(s: State, cidrs: seq<Option<string>>, ranges: seq<string>) {
    forall tape: Tape {:trigger Start(tape, s, Capture(cidrs, ranges))} ::
      CleansTo(tape, Start(tape, s, Capture(cidrs, ranges)).0, s.net)
  }

  /** The kernel keeps a chain while a rule jumps to it. */
  predicate WellFormed(n: Net) {
    forall j :: j in n.jumps ==> j.0 in n.chains
  }

  /** Checks that give no answer, and no failure after them. */
  function BlindTape(checks: nat): Tape {
    (t: nat) => if t < checks then Fail(false) else Succeed
  }

  /** On every network: a start can be undone from everywhere exactly when neither
      chain is there, none of the routes it plans is in its table, and none of
      the policies it plans is in force. The free checks help only while they
      answer: a listing that fails counts as free, and nothing looks for the
      policies. */
  lemma ReversibleExactly(s: State, cidrs: seq<Option<string>>, ranges: seq<string>)
    requires s.journal.None? && Distinct(ranges) && WellFormed(s.net)
    ensures Reversible(s, cidrs, ranges) <==> Free(s.net, cidrs, ranges)
  {
    hide Start, Cleanup, Free, CleansTo;
    if Free(s.net, cidrs, ranges) {
      forall tape: Tape ensures CleansTo(tape, Start(tape, s, Capture(cidrs, ranges)).0, s.net) {
        StartHarmless(tape, s, Capture(cidrs, ranges), s.net);
        HarmlessCleans(tape, Start(tape, s, Capture(cidrs, ranges)).0, s.net);
      }
    } else {
      var tape := BlindTape(s.clock + 3);
      if s.net.chains == map[] {
        assert s.net.jumps == {};
        BlindStartDeletes(tape, s, cidrs, ranges);
      } else {
        BlindStartTakesChain(tape, s, cidrs, ranges);
      }
      assert !CleansTo(tape, Start(tape, s, Capture(cidrs, ranges)).0, s.net);
    }
  }

  lemma BlindStart(tape: Tape, s: State, cidrs: seq<Option<string>>, ranges: seq<string>)
    requires s.journal.None? && tape == BlindTape(s.clock + 3)
    ensures var s2 := s.(journal := Some([]), clock := s.clock + 4);
      var (s3, ran) := RunActs(tape, s2, [], Program(cidrs, ranges));
      Start(tape, s, Capture(cidrs, ranges)) ==
        if ran.Failed? then (var (s4, undone) := Cleanup(tape, s3); (s4, if undone.Crashed? then Crashed else Failed)) else (s3, ran)
  {
    hide RunActs, Cleanup, Program;
    assert LooksFree(tape, s);
  }

  lemma BlindStartDeletes(tape: Tape, s: State, cidrs: seq<Option<string>>, ranges: seq<string>)
    requires s.journal.None? && tape == BlindTape(s.clock + 3) && Distinct(ranges)
    requires s.net.chains == map[] && s.net.jumps == {} && !Free(s.net, cidrs, ranges)
    ensures !CleansTo(tape, Start(tape, s, Capture(cidrs, ranges)).0, s.net)
  {
    hide RunActs, Cleanup, Program, Start, Free, Recorded, Spared;
    var s2 := s.(journal := Some([]), clock := s.clock + 4);
    BlindStart(tape, s, cidrs, ranges);
    UndisturbedProgram(tape, s2, cidrs, ranges, s.net);
    var s3 := RunActs(tape, s2, [], Program(cidrs, ranges)).0;
    CleanupCompletes(tape, s3, s.net);
  }

  // ---- a chain that is already there ----

  /** Dropping the chain is refused and not for its absence. */
  predicate Stuck(n: Net, t: Tool) {
    t in n.chains && (n.chains[t] != [] || Referenced(n, t))
  }

  /** Undos that neither flush the chain nor remove a jump to it. */
  predicate LeavesChain(undo: seq<Cmd>, t: Tool) {
    forall c :: c in undo ==> IsUndo(c) && c != FlushChain(t) && !(c.DelJump? && c.tool == t)
  }

  lemma UndoKeepsStuck(n: Net, c: Cmd, t: Tool)
    requires Stuck(n, t) && IsUndo(c) && c != FlushChain(t) && !(c.DelJump? && c.tool == t)
    ensures Stuck(Exec(n, c), t)
  {
    if Referenced(n, t) {
      var j :| j in n.jumps && j.0 == t;
      assert j in Exec(n, c).jumps;
    }
  }

  lemma {:induction false} UndoStuck(tape: Tape, s: State, undo: seq<Cmd>, n: nat, clean: bool, t: Tool)
    requires n <= |undo| && Stuck(s.net, t) && LeavesChain(undo, t) && CalmFrom(tape, s.clock)
    ensures var (after, exit) := Undo(tape, s, undo, n, clean);
      && Stuck(after.net, t) && after.journal == s.journal && after.clock >= s.clock
      && (!clean ==> exit.Failed?)
    decreases n
  {
    hide Stuck;
    if n > 0 {
      var c := undo[n - 1];
      assert c in undo;
      UndoKeepsStuck(s.net, c, t);
      var (s1, ran) := RunCmd(tape, s, c);
      UndoStuck(tape, s1, undo, n - 1, clean && (ran.Done? || AlreadyAbsent(s.net, c)), t);
    }
  }

  lemma {:induction false} UndoNeverAdds(tape: Tape, s: State, undo: seq<Cmd>, n: nat, clean: bool, t: Tool)
    requires n <= |undo| && t !in s.net.chains && LeavesChain(undo, t) && CalmFrom(tape, s.clock)
    ensures t !in Undo(tape, s, undo, n, clean).0.net.chains
    ensures Undo(tape, s, undo, n, clean).0.journal == s.journal && Undo(tape, s, undo, n, clean).0.clock >= s.clock
    decreases n
  {
    if n > 0 {
      var c := undo[n - 1];
      assert c in undo;
      var (s1, ran) := RunCmd(tape, s, c);
      UndoNeverAdds(tape, s1, undo, n - 1, clean && (ran.Done? || AlreadyAbsent(s.net, c)), t);
    }
  }

  /** A cleanup whose first command drops a chain of somebody else's deletes it, or
      is refused now and in every later cleanup. */
  lemma ForeignChainCleanup(tape: Tape, s: State, v: seq<Cmd>, t: Tool)
    requires s.journal == Some(v + [DropChain(t)]) && LeavesChain(v, t) && CalmFrom(tape, s.clock)
    ensures var (after, exit) := Cleanup(tape, s);
      && (after.journal.None? || after.journal == s.journal) && after.clock >= s.clock
      && (t !in s.net.chains || !Stuck(s.net, t) ==> t !in after.net.chains)
      && (Stuck(s.net, t) ==> exit.Failed? && after.journal == s.journal && Stuck(after.net, t))
  {
    var undo := v + [DropChain(t)];
    var n := |undo|;
    assert undo[n - 1] == DropChain(t);
    assert LeavesChain(undo, t);
    var (s1, ran) := RunCmd(tape, s, DropChain(t));
    var good := ran.Done? || AlreadyAbsent(s.net, DropChain(t));
    assert Undo(tape, s, undo, n, true) == Undo(tape, s1, undo, n - 1, good);
    if Stuck(s.net, t) {
      UndoStuck(tape, s1, undo, n - 1, good, t);
    } else {
      assert t !in s1.net.chains;
      UndoNeverAdds(tape, s1, undo, n - 1, good, t);
    }
  }

  lemma ForeignChainLost(tape: Tape, s: State, v: seq<Cmd>, t: Tool, foreign: Net)
    requires s.journal == Some(v + [DropChain(t)]) && LeavesChain(v, t) && CalmFrom(tape, s.clock)
    requires t in s.net.chains && t in foreign.chains
    ensures !CleansTo(tape, Cleanup(tape, s).0, foreign)
  {
    hide Cleanup, Stuck;
    ForeignChainCleanup(tape, s, v, t);
    var after := Cleanup(tape, s).0;
    if after.journal.Some? {
      ForeignChainCleanup(tape, after, v, t);
      assert AllSucceed(tape, after.clock, after.clock + |after.journal.value| + 1);
    }
  }

  lemma BlindStartTakesChain(tape: Tape, s: State, cidrs: seq<Option<string>>, ranges: seq<string>)
    requires s.journal.None? && tape == BlindTape(s.clock + 3) && s.net.chains != map[]
    ensures !CleansTo(tape, Start(tape, s, Capture(cidrs, ranges)).0, s.net)
  {
    hide Cleanup, Start, RunActs, Progress, Stuck;
    var s2 := s.(journal := Some([]), clock := s.clock + 4);
    BlindStart(tape, s, cidrs, ranges);
    var tool := if Iptables in s.net.chains then Iptables else Ip6tables;
    assert tool in s.net.chains by { if Iptables !in s.net.chains { SomeChain(s.net); } }
    RunActsProgress(tape, s2, [], Program(cidrs, ranges));
    TakenChainProgress(s.net, cidrs, ranges, tool);
    var (m, u, _) := Progress(s.net, Program(cidrs, ranges));
    var v := if tool == Iptables then [] else [DropChain(Iptables), FlushChain(Iptables)];
    assert [] + u == u == v + [DropChain(tool)];
    ForeignChainLost(tape, RunActs(tape, s2, [], Program(cidrs, ranges)).0, v, tool, s.net);
  }

  lemma SomeChain(n: Net)
    requires n.chains != map[] && Iptables !in n.chains
    ensures Ip6tables in n.chains
  {
    var t :| t in n.chains;
    assert t == Iptables || t == Ip6tables;
  }

  /** The program stops at the first chain that is there, its drop recorded. */
  lemma TakenChainProgress(n: Net, cidrs: seq<Option<string>>, ranges: seq<string>, tool: Tool)
    requires tool in n.chains && (tool == Iptables || Iptables !in n.chains)
    ensures var (m, u, ok) := Progress(n, Program(cidrs, ranges));
      && !ok && tool in m.chains
      && u == (if tool == Iptables then [] else [DropChain(Iptables), FlushChain(Iptables)]) + [DropChain(tool)]
  {
    hide Progress;
    var route := [Journaled(AddRoute(Default), DelRoute(Default))];
    var rest := route + (BypassActs(cidrs, {}) + RangesActs(ranges));
    if tool == Iptables {
      TakenChain(n, tool, ChainActs(Ip6tables) + rest);
    } else {
      ChainProgress(n, Iptables);
      var m := Progress(n, ChainActs(Iptables)).0;
      ProgressSplit(n, ChainActs(Iptables), ChainActs(Ip6tables) + rest);
      TakenChain(m, tool, rest);
    }
  }

  lemma TakenChain(n: Net, tool: Tool, rest: seq<Act>)
    requires tool in n.chains
    ensures Progress(n, ChainActs(tool) + rest) == (n, [DropChain(tool)], false)
  {
    var make := Journaled(NewChain(tool), DropChain(tool));
    var tail := ChainActs(tool)[1..] + rest;
    assert ChainActs(tool) + rest == [make] + tail;
    ProgressNext(n, make, tail);
  }

  // ---- where the checks answer ----

  /** The three listings succeed. */
  predicate ChecksAnswer(tape: Tape, s: State) {
    AllSucceed(tape, s.clock, s.clock + 3)
  }

  ghost predicate ReversibleWhenAnswered(s: State, cidrs: seq<Option<string>>, ranges: seq<string>) {
    forall tape: Tape {:trigger Start(tape, s, Capture(cidrs, ranges))} ::
      ChecksAnswer(tape, s) ==> CleansTo(tape, Start(tape, s, Capture(cidrs, ranges)).0, s.net)
  }

  /** With listings that answer, what is left to go wrong are the policies: a start
      is reversible exactly when the table or a chain is taken, so that it does
      not begin, or no policy it plans is in force. */
  lemma ReversibleWhenAnsweredExactly(s: State, cidrs: seq<Option<string>>, ranges: seq<string>)
    requires s.journal.None? && Distinct(ranges) && WellFormed(s.net)
    ensures ReversibleWhenAnswered(s, cidrs, ranges) <==>
      s.net.routes != {} || s.net.chains != map[] || PlannedPolicies(cidrs, ranges) !! s.net.policies
  {
    hide Start, Cleanup, CleansTo, PlannedPolicies, PlannedRoutes;
    if s.net.routes != {} || s.net.chains != map[] {
      if s.net.chains != map[] && Iptables !in s.net.chains { SomeChain(s.net); }
      forall tape: Tape | ChecksAnswer(tape, s) ensures CleansTo(tape, Start(tape, s, Capture(cidrs, ranges)).0, s.net) {
        TakenFootprintRefused(tape, s, Capture(cidrs, ranges));
        HarmlessCleans(tape, Start(tape, s, Capture(cidrs, ranges)).0, s.net);
      }
    } else if PlannedPolicies(cidrs, ranges) !! s.net.policies {
      assert s.net.jumps == {};
      ReversibleExactly(s, cidrs, ranges);
    } else {
      assert s.net.jumps == {};
      var tape: Tape := (t: nat) => Verdict.Succeed;
      assert Parses(cidrs) && !((set r | r in ranges) !! s.net.policies) by { PoliciesPlanned(cidrs, ranges, s.net.policies); }
      UndisturbedStart(tape, s, cidrs, ranges);
      assert ChecksAnswer(tape, s);
      var after := Start(tape, s, Capture(cidrs, ranges)).0;
      assert !CleansTo(tape, after, s.net) by { LostPolicy(tape, after, s.net); }
    }
  }

  lemma PoliciesPlanned(cidrs: seq<Option<string>>, ranges: seq<string>, policies: set<string>)
    requires !(PlannedPolicies(cidrs, ranges) !! policies)
    ensures Parses(cidrs) && !((set r | r in ranges) !! policies)
  {
  }

  lemma LostPolicy(tape: Tape, s: State, foreign: Net)
    requires s.journal.None? && s.net.policies < foreign.policies
    ensures !CleansTo(tape, s, foreign)
  {
  }

  /** One concrete loss: another owner's whole-device policy is gone. */
  lemma ForeignPolicyLost()
    ensures var r := "1-4294967294";
      var s := State(Net(map[], {}, {}, {r}), None, 0);
      var tape: Tape := (t: nat) => Verdict.Succeed;
      Start(tape, s, Capture([Some("127.0.0.0/8")], [r])).0.net.policies == {}
  {
    hide Start, Installed;
    var r := "1-4294967294";
    var s := State(Net(map[], {}, {}, {r}), None, 0);
    var tape: Tape := (t: nat) => Verdict.Succeed;
    assert r in [r] && r in {r};
    UndisturbedStart(tape, s, [Some("127.0.0.0/8")], [r]);
    var p := Start(tape, s, Capture([Some("127.0.0.0/8")], [r])).0.net.policies;
    assert p < {r};
    assert r in p ==> p == {r};
    assert p == {};
  }

  /** Another: the listing of the chain fails once, and an empty chain that somebody
      else made under the same name is lost. */
  lemma UnseenChainLost()
    ensures var s := State(Net(map[Iptables := []], {}, {}, {}), None, 0);
      !CleansTo(BlindTape(3), Start(BlindTape(3), s, Capture([], [])).0, s.net)
  {
    var s := State(Net(map[Iptables := []], {}, {}, {}), None, 0);
    assert Iptables in s.net.chains;
    BlindStartTakesChain(BlindTape(3), s, [], []);
  }

  /** A start that is shown its table or a chain in use changes nothing. */
  lemma TakenFootprintRefused(tape: Tape, s: State, config: Config)
    requires s.journal.None? && config.Capture?
    requires (tape(s.clock).Succeed? && s.net.routes != {})
      || (tape(s.clock + 1).Succeed? && Iptables in s.net.chains)
      || (tape(s.clock + 2).Succeed? && Ip6tables in s.net.chains)
    ensures var (after, exit) := Start(tape, s, config);
      exit.Failed? && after.net == s.net && after.journal == s.journal
  {
  }
}
