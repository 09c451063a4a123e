/** cmd/tun2proxy-web/routes.go: capture routing behind a write-ahead undo log.
    Every command and every journal write may fail or be the last thing the
    process does, with or without its effect. */
module Routes {
  import opened Text

  datatype Tool = Iptables | Ip6tables

  /** A route of the module's table; others may have put anything there. */
  datatype Route = Default | Throw(cidr: string) | Other(text: string)

  /** The rules of the module's chains: refuse UDP other than DNS, refuse anything,
      let the loopback address go, let a bypassed network go. */
  datatype Rule = RejectUdp | RejectAll | ReturnLoopback | Bypass(cidr: string)

  /** The commands the module runs on its own chain, table and rules. */
  datatype Cmd =
    | NewChain(tool: Tool)
    | DropChain(tool: Tool)
    | FlushChain(tool: Tool)
    | AppendRule(tool: Tool, rule: Rule)
    | InsertRule(tool: Tool, rule: Rule)
    | AddJump(tool: Tool, owner: string)
    | DelJump(tool: Tool, owner: string)
    | AddRoute(dest: Route)
    | DelRoute(dest: Route)
    | AddPolicy(range: string)
    | DelPolicy(range: string)
    | StartWatcher
    | BadBypass

  /** The parts of the network state those commands can reach. */
  datatype Net = Net(
    chains: map<Tool, seq<Rule>>,
    jumps: set<(Tool, string)>,
    routes: set<Route>,
    policies: set<string>)

  predicate Referenced(n: Net, tool: Tool) {
    exists j :: j in n.jumps && j.0 == tool
  }

  /** Whether the kernel accepts the command. */
  predicate Accepts(n: Net, c: Cmd) {
    match c
    case NewChain(t) => t !in n.chains
    case DropChain(t) => t in n.chains && n.chains[t] == [] && !Referenced(n, t)
    case FlushChain(t) => t in n.chains
    case AppendRule(t, _) => t in n.chains
    case InsertRule(t, _) => t in n.chains
    case AddJump(t, _) => t in n.chains
    case DelJump(t, owner) => (t, owner) in n.jumps
    case AddRoute(d) => d !in n.routes
    case DelRoute(d) => d in n.routes
    case AddPolicy(r) => r !in n.policies
    case DelPolicy(r) => r in n.policies
    case StartWatcher => true
    case BadBypass => false
  }

  /** `routeAlreadyAbsent`: the refusal says the object is not there. */
  predicate AlreadyAbsent(n: Net, c: Cmd) {
    match c
    case DropChain(t) => t !in n.chains
    case FlushChain(t) => t !in n.chains
    case DelJump(t, owner) => (t, owner) !in n.jumps
    case DelRoute(d) => d !in n.routes
    case DelPolicy(r) => r !in n.policies
    case _ => false
  }

  function Exec(n: Net, c: Cmd): Net {
    if !Accepts(n, c) then n
    else
      match c
      case NewChain(t) => n.(chains := n.chains[t := []])
      case DropChain(t) => n.(chains := n.chains - {t})
      case FlushChain(t) => n.(chains := n.chains[t := []])
      case AppendRule(t, rule) => n.(chains := n.chains[t := n.chains[t] + [rule]])
      case InsertRule(t, rule) => n.(chains := n.chains[t := [rule] + n.chains[t]])
      case AddJump(t, owner) => n.(jumps := n.jumps + {(t, owner)})
      case DelJump(t, owner) => n.(jumps := n.jumps - {(t, owner)})
      case AddRoute(d) => n.(routes := n.routes + {d})
      case DelRoute(d) => n.(routes := n.routes - {d})
      case AddPolicy(r) => n.(policies := n.policies + {r})
      case DelPolicy(r) => n.(policies := n.policies - {r})
      case StartWatcher => n
      case BadBypass => n
  }

  // ---- the program startRoutes runs ----

  /** `add` records the undo before it acts; a note records only; a plain action
      is covered by an undo recorded earlier. */
  datatype Act = Journaled(act: Cmd, undo: Cmd) | Note(undo: Cmd) | Plain(act: Cmd)

  function ChainRules(tool: Tool): seq<Act> {
    if tool == Iptables then [Plain(AppendRule(tool, RejectUdp))]
    else [Plain(AppendRule(tool, ReturnLoopback)), Plain(AppendRule(tool, RejectAll))]
  }

  function ChainActs(tool: Tool): seq<Act> {
    [Journaled(NewChain(tool), DropChain(tool)), Note(FlushChain(tool))] + ChainRules(tool)
  }

  /** The bypass loop: None is a destination that does not parse. */
  function BypassActs(cidrs: seq<Option<string>>, seen: set<string>): seq<Act>
    decreases |cidrs|
  {
    if cidrs == [] then []
    else if cidrs[0].None? then [Plain(BadBypass)]
    else
      var cidr := cidrs[0].value;
      if cidr in seen then BypassActs(cidrs[1..], seen)
      else [Plain(InsertRule(Iptables, Bypass(cidr))), Journaled(AddRoute(Throw(cidr)), DelRoute(Throw(cidr)))]
           + BypassActs(cidrs[1..], seen + {cidr})
  }

  function RangeActs(r: string): seq<Act> {
    [ Journaled(AddJump(Iptables, r), DelJump(Iptables, r)),
      Journaled(AddJump(Ip6tables, r), DelJump(Ip6tables, r)),
      Journaled(AddPolicy(r), DelPolicy(r)) ]
  }

  function RangesActs(ranges: seq<string>): seq<Act>
    decreases |ranges|
  {
    if ranges == [] then [Plain(StartWatcher)] else RangeActs(ranges[0]) + RangesActs(ranges[1..])
  }

  function Program(cidrs: seq<Option<string>>, ranges: seq<string>): seq<Act> {
    ChainActs(Iptables) + (ChainActs(Ip6tables) +
      ([Journaled(AddRoute(Default), DelRoute(Default))] +
        (BypassActs(cidrs, {}) + RangesActs(ranges))))
  }

  // ---- execution under failures ----

  datatype Verdict = Succeed | Fail(effect: bool) | Crash(effect: bool)

  type Tape = nat -> Verdict

  datatype State = State(net: Net, journal: Option<seq<Cmd>>, clock: nat)

  datatype Exit = Done | Failed | Crashed

  function RunCmd(tape: Tape, s: State, c: Cmd): (State, Exit) {
    var v := tape(s.clock);
    var acts := v.Succeed? || v.effect;
    var next := s.(net := if acts then Exec(s.net, c) else s.net, clock := s.clock + 1);
    (next, if v.Crash? then Crashed else if v.Succeed? && Accepts(s.net, c) then Done else Failed)
  }

  function Write(tape: Tape, s: State, undo: seq<Cmd>): (State, Exit) {
    var v := tape(s.clock);
    var next := s.(clock := s.clock + 1);
    (if v.Succeed? || v.effect then next.(journal := Some(undo)) else next,
     match v case Succeed => Done case Fail(_) => Failed case Crash(_) => Crashed)
  }

  /** The commands from here on, with `undo` recorded so far. */
  function RunActs(tape: Tape, s: State, undo: seq<Cmd>, acts: seq<Act>): (State, Exit)
    decreases |acts|
  {
    if acts == [] then (s, Done)
    else
      var a := acts[0];
      var recorded := if a.Plain? then undo else undo + [a.undo];
      var (s1, wrote) := if a.Plain? then (s, Done) else Write(tape, s, recorded);
      if !wrote.Done? then (s1, wrote)
      else
        var (s2, ran) := if a.Note? then (s1, Done) else RunCmd(tape, s1, a.act);
        if !ran.Done? then (s2, ran) else RunActs(tape, s2, recorded, acts[1..])
  }

  /** `cleanupRoutes`' loop over the first n undo commands, last one first. */
  function Undo(tape: Tape, s: State, undo: seq<Cmd>, n: nat, clean: bool): (State, Exit)
    requires n <= |undo|
    decreases n
  {
    if n == 0 then (s, if clean then Done else Failed)
    else
      var c := undo[n - 1];
      var (s1, ran) := RunCmd(tape, s, c);
      if ran.Crashed? then (s1, Crashed)
      else
        var absent := tape(s.clock).Succeed? && AlreadyAbsent(s.net, c);
        Undo(tape, s1, undo, n - 1, clean && (ran.Done? || absent))
  }

  /** `cleanupRoutes`: replay, then remove the journal if nothing failed. */
  function Cleanup(tape: Tape, s: State): (State, Exit) {
    if s.journal.None? then (s, Failed)
    else
      var (s1, exit) := Undo(tape, s, s.journal.value, |s.journal.value|, true);
      if !exit.Done? then (s1, exit)
      else
        var v := tape(s1.clock);
        var next := s1.(clock := s1.clock + 1);
        (if v.Succeed? || v.effect then next.(journal := None) else next,
         match v case Succeed => Done case Fail(_) => Failed case Crash(_) => Crashed)
  }

  /** The footprint checks of `startRoutes`. A failing table listing counts as free
      unless it prints something; a failing chain listing counts as free. */
  predicate LooksFree(tape: Tape, s: State) {
    && (if tape(s.clock).Succeed? then s.net.routes == {} else !tape(s.clock).effect)
    && (tape(s.clock + 1).Succeed? ==> Iptables !in s.net.chains)
    && (tape(s.clock + 2).Succeed? ==> Ip6tables !in s.net.chains)
  }

  /** What the configuration, interface, engine and app checks come to. */
  datatype Config = Off | Rejected | Capture(cidrs: seq<Option<string>>, ranges: seq<string>)

  /** `startRoutes`, under the route lock. */
  function Start(tape: Tape, s: State, config: Config): (State, Exit) {
    var (s1, cleaned) := if s.journal.None? then (s, Done) else Cleanup(tape, s);
    if !cleaned.Done? then (s1, cleaned)
    else if config.Off? then (s1, Done)
    else if config.Rejected? then (s1, Failed)
    else if !LooksFree(tape, s1) then (s1.(clock := s1.clock + 3), Failed)
    else
      var (s2, wrote) := Write(tape, s1.(clock := s1.clock + 3), []);
      if !wrote.Done? then (s2, wrote)
      else
        var (s3, ran) := RunActs(tape, s2, [], Program(config.cidrs, config.ranges));
        if ran.Failed? then
          var (s4, undone) := Cleanup(tape, s3);
          (s4, if undone.Crashed? then Crashed else Failed)
        else (s3, ran)
  }

  // ---- the journal covers the kernel ----

  predicate Inverse(act: Cmd, undo: Cmd) {
    match act
    case NewChain(t) => undo == DropChain(t)
    case AddJump(t, owner) => undo == DelJump(t, owner)
    case AddRoute(d) => undo == DelRoute(d)
    case AddPolicy(r) => undo == DelPolicy(r)
    case _ => false
  }

  /** Dropping a chain is only recorded before flushing it and before jumps to it,
      so that the reverse replay finds it empty and unreferenced. */
  predicate DropFirst(undo: seq<Cmd>, c: Cmd) {
    c.DropChain? ==> forall k :: 0 <= k < |undo| ==>
      undo[k] != FlushChain(c.tool) && !(undo[k].DelJump? && undo[k].tool == c.tool)
  }

  /** What the program owes its journal, from here on. */
  predicate Sound(undo: seq<Cmd>, acts: seq<Act>)
    decreases |acts|
  {
    acts == [] ||
    match acts[0]
    case Journaled(act, u) => Inverse(act, u) && DropFirst(undo, u) && Sound(undo + [u], acts[1..])
    case Note(u) => u.FlushChain? && Sound(undo + [u], acts[1..])
    case Plain(act) =>
      && (act == StartWatcher || act == BadBypass || ((act.AppendRule? || act.InsertRule?) && FlushChain(act.tool) in undo))
      && Sound(undo, acts[1..])
  }

  lemma {:induction false} BypassSound(undo: seq<Cmd>, cidrs: seq<Option<string>>, seen: set<string>, rest: seq<Act>)
    requires FlushChain(Iptables) in undo
    requires forall u :: undo <= u ==> Sound(u, rest)
    ensures Sound(undo, BypassActs(cidrs, seen) + rest)
    decreases |cidrs|
  {
    if cidrs == [] {
      assert [] + rest == rest;
    } else if cidrs[0].None? {
      assert ([Plain(BadBypass)] + rest)[1..] == rest;
    } else {
      var cidr := cidrs[0].value;
      if cidr in seen {
        BypassSound(undo, cidrs[1..], seen, rest);
      } else {
        var u := undo + [DelRoute(Throw(cidr))];
        BypassSound(u, cidrs[1..], seen + {cidr}, rest);
        var more := BypassActs(cidrs[1..], seen + {cidr}) + rest;
        var all := [Plain(InsertRule(Iptables, Bypass(cidr))), Journaled(AddRoute(Throw(cidr)), DelRoute(Throw(cidr)))] + more;
        assert BypassActs(cidrs, seen) + rest == all;
        assert all[1..] == [Journaled(AddRoute(Throw(cidr)), DelRoute(Throw(cidr)))] + more && all[1..][1..] == more;
        assert Sound(undo, all[1..]);
      }
    }
  }

  lemma {:induction false} RangesSound(undo: seq<Cmd>, ranges: seq<string>)
    ensures Sound(undo, RangesActs(ranges))
    decreases |ranges|
  {
    if ranges == [] {
      assert [Plain(StartWatcher)][1..] == [];
    } else {
      var r := ranges[0];
      var more := RangesActs(ranges[1..]);
      var u1 := undo + [DelJump(Iptables, r)];
      var u2 := u1 + [DelJump(Ip6tables, r)];
      RangesSound(u2 + [DelPolicy(r)], ranges[1..]);
      var all := RangeActs(r) + more;
      assert all[1..][1..][1..] == more;
      assert Sound(u2, all[1..][1..]) && Sound(u1, all[1..]);
    }
  }

  lemma SoundPlain(undo: seq<Cmd>, act: Cmd, rest: seq<Act>)
    requires act.AppendRule? && FlushChain(act.tool) in undo && Sound(undo, rest)
    ensures Sound(undo, [Plain(act)] + rest)
  {
    assert ([Plain(act)] + rest)[1..] == rest;
  }

  lemma SoundRecorded(undo: seq<Cmd>, a: Act, rest: seq<Act>)
    requires if a.Journaled? then Inverse(a.act, a.undo) && DropFirst(undo, a.undo) else a.Note? && a.undo.FlushChain?
    requires Sound(undo + [a.undo], rest)
    ensures Sound(undo, [a] + rest)
  {
    assert ([a] + rest)[1..] == rest;
  }

  lemma NoDrop(undo: seq<Cmd>, c: Cmd)
    requires !c.DropChain?
    ensures DropFirst(undo, c)
  {
  }

  lemma ChainActsAre(tool: Tool, rest: seq<Act>)
    ensures ChainActs(tool) + rest
      == [Journaled(NewChain(tool), DropChain(tool))] + ([Note(FlushChain(tool))] + (ChainRules(tool) + rest))
  {
  }

  lemma RulesSound(undo: seq<Cmd>, tool: Tool, rest: seq<Act>)
    requires FlushChain(tool) in undo && Sound(undo, rest)
    ensures Sound(undo, ChainRules(tool) + rest)
  {
    hide Sound;
    if tool == Iptables {
      SoundPlain(undo, AppendRule(tool, RejectUdp), rest);
    } else {
      var a, b := Plain(AppendRule(tool, ReturnLoopback)), Plain(AppendRule(tool, RejectAll));
      SoundPlain(undo, b.act, rest);
      SoundPlain(undo, a.act, [b] + rest);
      assert [a, b] + rest == [a] + ([b] + rest);
    }
  }

  lemma ChainSound(undo: seq<Cmd>, tool: Tool, rest: seq<Act>)
    requires DropFirst(undo, DropChain(tool))
    requires Sound(undo + [DropChain(tool)] + [FlushChain(tool)], rest)
    ensures Sound(undo, ChainActs(tool) + rest)
  {
    hide Sound, DropFirst, ChainActs, ChainRules;
    var u1 := undo + [DropChain(tool)];
    var u2 := u1 + [FlushChain(tool)];
    assert DropFirst(u1, FlushChain(tool)) by { NoDrop(u1, FlushChain(tool)); }
    ChainActsAre(tool, rest);
    var make, note := Journaled(NewChain(tool), DropChain(tool)), Note(FlushChain(tool));
    assert u2[|u1|] == FlushChain(tool);
    var rules := ChainRules(tool) + rest;
    RulesSound(u2, tool, rest);
    SoundRecorded(u1, note, rules);
    SoundRecorded(undo, make, [note] + rules);
  }

  lemma ProgramSound(cidrs: seq<Option<string>>, ranges: seq<string>)
    ensures Sound([], Program(cidrs, ranges))
  {
    hide Sound, ChainActs, BypassActs, RangesActs;
    var u1 := [] + [DropChain(Iptables)] + [FlushChain(Iptables)];
    var u2 := u1 + [DropChain(Ip6tables)] + [FlushChain(Ip6tables)];
    var u3 := u2 + [DelRoute(Default)];
    forall u | u3 <= u ensures Sound(u, RangesActs(ranges)) { RangesSound(u, ranges); }
    assert u3[1] == FlushChain(Iptables);
    BypassSound(u3, cidrs, {}, RangesActs(ranges));
    var tail := BypassActs(cidrs, {}) + RangesActs(ranges);
    SoundRecorded(u2, Journaled(AddRoute(Default), DelRoute(Default)), tail);
    ChainSound(u1, Ip6tables, [Journaled(AddRoute(Default), DelRoute(Default))] + tail);
    ChainSound([], Iptables, ChainActs(Ip6tables) + ([Journaled(AddRoute(Default), DelRoute(Default))] + tail));
  }

  /** Every chain and jump is undone by the journal, and so is every route and
      policy that is not foreign; only routes and policies that the journal names
      may be missing from the foreign ones. */
  predicate Covered(undo: seq<Cmd>, n: Net, foreign: Net) {
    && (forall t :: t in n.chains ==> DropChain(t) in undo && (n.chains[t] != [] ==> FlushChain(t) in undo))
    && (forall j :: j in n.jumps ==> DelJump(j.0, j.1) in undo)
    && (forall d :: d in n.routes ==> d in foreign.routes || DelRoute(d) in undo)
    && (forall d :: d in foreign.routes ==> d in n.routes || DelRoute(d) in undo)
    && (forall r :: r in n.policies ==> r in foreign.policies || DelPolicy(r) in undo)
    && (forall r :: r in foreign.policies ==> r in n.policies || DelPolicy(r) in undo)
  }

  /** Reverse replay reaches a chain's flush and its jumps before the chain. */
  predicate Replayable(undo: seq<Cmd>) {
    forall k :: 0 <= k < |undo| ==> DropFirst(undo[..k], undo[k])
  }

  predicate IsUndo(c: Cmd) {
    c.DropChain? || c.FlushChain? || c.DelJump? || c.DelRoute? || c.DelPolicy?
  }

  lemma CoveredMore(undo: seq<Cmd>, u: Cmd, n: Net, foreign: Net)
    requires Covered(undo, n, foreign)
    ensures Covered(undo + [u], n, foreign)
  {
    assert forall c :: c in undo ==> c in undo + [u];
  }

  lemma ActCovered(undo: seq<Cmd>, n: Net, foreign: Net, a: Cmd)
    requires Covered(undo, n, foreign)
    requires (exists u :: u in undo && Inverse(a, u)) || a == StartWatcher || a == BadBypass
             || ((a.AppendRule? || a.InsertRule?) && FlushChain(a.tool) in undo)
    ensures Covered(undo, Exec(n, a), foreign)
  {
  }

  lemma UndoCovered(undo: seq<Cmd>, n: Net, foreign: Net, c: Cmd)
    requires Covered(undo, n, foreign) && c in undo && IsUndo(c)
    ensures Covered(undo, Exec(n, c), foreign)
  {
  }

  predicate Recorded(s: State, foreign: Net) {
    match s.journal
    case None => s.net == foreign
    case Some(undo) => Covered(undo, s.net, foreign) && Replayable(undo) && forall c :: c in undo ==> IsUndo(c)
  }

  lemma ReplayableMore(undo: seq<Cmd>, u: Cmd)
    requires Replayable(undo) && DropFirst(undo, u)
    ensures Replayable(undo + [u])
  {
    forall k | 0 <= k < |undo + [u]| ensures DropFirst((undo + [u])[..k], (undo + [u])[k]) {
      if k < |undo| { assert (undo + [u])[..k] == undo[..k]; } else { assert (undo + [u])[..k] == undo; }
    }
  }

  /** Each mutation's undo is on disk before it runs: wherever the program stops,
      the journal covers the kernel. */
  lemma {:induction false} RunActsCovered(tape: Tape, s: State, undo: seq<Cmd>, acts: seq<Act>, foreign: Net)
    requires s.journal == Some(undo) && Recorded(s, foreign) && Sound(undo, acts)
    ensures RunActs(tape, s, undo, acts).0.journal.Some? && Recorded(RunActs(tape, s, undo, acts).0, foreign)
    decreases |acts|
  {
    hide Covered, Replayable;
    if acts != [] {
      var a := acts[0];
      if a.Plain? {
        ActCovered(undo, s.net, foreign, a.act);
        var (s2, ran) := RunCmd(tape, s, a.act);
        if ran.Done? { RunActsCovered(tape, s2, undo, acts[1..], foreign); }
      } else {
        var more := undo + [a.undo];
        CoveredMore(undo, a.undo, s.net, foreign);
        ReplayableMore(undo, a.undo);
        assert more[|undo|] == a.undo;
        var (s1, wrote) := Write(tape, s, more);
        if wrote.Done? {
          if a.Journaled? {
            ActCovered(more, s1.net, foreign, a.act);
            var (s2, ran) := RunCmd(tape, s1, a.act);
            if ran.Done? { RunActsCovered(tape, s2, more, acts[1..], foreign); }
          } else {
            RunActsCovered(tape, s1, more, acts[1..], foreign);
          }
        }
      }
    }
  }

  /** What the undo commands from n on have left behind. */
  predicate Gone(n: Net, c: Cmd) {
    match c
    case DropChain(t) => t !in n.chains
    case FlushChain(t) => t in n.chains ==> n.chains[t] == []
    case DelJump(t, owner) => (t, owner) !in n.jumps
    case DelRoute(d) => d !in n.routes
    case DelPolicy(r) => r !in n.policies
    case _ => true
  }

  lemma GoneStays(n: Net, c: Cmd, next: Cmd)
    requires Gone(n, c) && IsUndo(next)
    ensures Gone(Exec(n, next), c)
  {
  }

  /** With earlier undos done, the next one does its job. */
  lemma UndoWorks(undo: seq<Cmd>, k: nat, n: Net, foreign: Net)
    requires k < |undo| && Covered(undo, n, foreign) && Replayable(undo) && IsUndo(undo[k])
    requires forall m :: k < m < |undo| ==> Gone(n, undo[m])
    ensures Accepts(n, undo[k]) || AlreadyAbsent(n, undo[k])
    ensures Gone(Exec(n, undo[k]), undo[k])
  {
    var c := undo[k];
    if c.DropChain? && c.tool in n.chains {
      var t := c.tool;
      if n.chains[t] != [] {
        LaterThanDrop(undo, k, FlushChain(t));
      }
      forall j | j in n.jumps ensures j.0 != t {
        if j.0 == t { LaterThanDrop(undo, k, DelJump(j.0, j.1)); }
      }
    }
  }

  lemma LaterThanDrop(undo: seq<Cmd>, k: nat, c: Cmd)
    requires k < |undo| && Replayable(undo) && undo[k].DropChain? && c in undo
    requires c == FlushChain(undo[k].tool) || (c.DelJump? && c.tool == undo[k].tool)
    ensures exists m :: k < m < |undo| && undo[m] == c
  {
    var m :| 0 <= m < |undo| && undo[m] == c;
    assert DropFirst(undo[..k], undo[k]);
    assert forall i :: 0 <= i < k ==> undo[..k][i] == undo[i];
    assert m != k;
  }

  lemma {:induction false} UndoSafe(tape: Tape, s: State, undo: seq<Cmd>, n: nat, clean: bool, foreign: Net)
    requires n <= |undo| && s.journal == Some(undo) && Recorded(s, foreign)
    ensures Undo(tape, s, undo, n, clean).0.journal == Some(undo)
    ensures Recorded(Undo(tape, s, undo, n, clean).0, foreign)
    decreases n
  {
    hide Covered, Replayable;
    if n > 0 {
      var c := undo[n - 1];
      var (s1, ran) := RunCmd(tape, s, c);
      UndoCovered(undo, s.net, foreign, c);
      if !ran.Crashed? {
        UndoSafe(tape, s1, undo, n - 1, clean && (ran.Done? || (tape(s.clock).Succeed? && AlreadyAbsent(s.net, c))), foreign);
      }
    }
  }

  predicate AllSucceed(tape: Tape, from: nat, to: nat) {
    forall t :: from <= t < to ==> tape(t).Succeed?
  }

  /** When every undo succeeds or reports absence, everything recorded is gone. */
  lemma {:induction false} UndoCompletes(tape: Tape, s: State, undo: seq<Cmd>, n: nat, foreign: Net)
    requires n <= |undo| && s.journal == Some(undo) && Recorded(s, foreign)
    requires forall m :: n <= m < |undo| ==> Gone(s.net, undo[m])
    requires AllSucceed(tape, s.clock, s.clock + n)
    ensures var (after, exit) := Undo(tape, s, undo, n, true);
      && exit.Done? && after.journal == Some(undo) && after.clock == s.clock + n && Recorded(after, foreign)
      && forall m :: 0 <= m < |undo| ==> Gone(after.net, undo[m])
    decreases n
  {
    hide Covered, Replayable;
    if n > 0 {
      var c := undo[n - 1];
      UndoWorks(undo, n - 1, s.net, foreign);
      var (s1, ran) := RunCmd(tape, s, c);
      UndoCovered(undo, s.net, foreign, c);
      forall m | n <= m < |undo| ensures Gone(s1.net, undo[m]) { GoneStays(s.net, undo[m], c); }
      UndoCompletes(tape, s1, undo, n - 1, foreign);
    }
  }

  /** The foreign routes and policies that the journal would delete. */
  function NamedRoutes(undo: seq<Cmd>, foreign: Net): set<Route> {
    set d | d in foreign.routes && DelRoute(d) in undo
  }

  function NamedPolicies(undo: seq<Cmd>, foreign: Net): set<string> {
    set r | r in foreign.policies && DelPolicy(r) in undo
  }

  /** What is left when everything of the journal is gone. */
  function Spared(undo: seq<Cmd>, foreign: Net): Net {
    Net(map[], {}, foreign.routes - NamedRoutes(undo, foreign), foreign.policies - NamedPolicies(undo, foreign))
  }

  lemma AllGone(undo: seq<Cmd>, n: Net, foreign: Net)
    requires Covered(undo, n, foreign)
    requires forall m :: 0 <= m < |undo| ==> Gone(n, undo[m])
    ensures n == Spared(undo, foreign)
  {
    assert forall c :: c in undo ==> Gone(n, c);
    assert forall t :: Gone(n, DropChain(t)) ==> t !in n.chains;
    assert forall j :: j in n.jumps ==> !Gone(n, DelJump(j.0, j.1));
    forall d ensures d in n.routes <==> d in Spared(undo, foreign).routes {
      assert Gone(n, DelRoute(d)) <==> d !in n.routes;
    }
    forall r ensures r in n.policies <==> r in Spared(undo, foreign).policies {
      assert Gone(n, DelPolicy(r)) <==> r !in n.policies;
    }
    assert n.chains == map[];
  }

  /** A final cleanup in which every undo succeeds or reports absence leaves the
      module's chains, jumps, routes and policies gone, the journal removed, and
      the foreign routes and policies as they were except those it names. */
  lemma CleanupCompletes(tape: Tape, s: State, foreign: Net)
    requires s.journal.Some? && Recorded(s, foreign)
    requires AllSucceed(tape, s.clock, s.clock + |s.journal.value| + 1)
    ensures var (after, exit) := Cleanup(tape, s);
      && exit.Done? && after.journal == None
      && after.net == Spared(s.journal.value, foreign)
  {
    hide Undo, Covered, Replayable;
    var undo := s.journal.value;
    UndoCompletes(tape, s, undo, |undo|, foreign);
    AllGone(undo, Undo(tape, s, undo, |undo|, true).0.net, foreign);
  }

  lemma CleanupSafe(tape: Tape, s: State, foreign: Net)
    requires s.journal.Some? && Recorded(s, foreign) && Spared(s.journal.value, foreign) == foreign
    ensures Recorded(Cleanup(tape, s).0, foreign)
    ensures Cleanup(tape, s).0.journal.Some? ==> Cleanup(tape, s).0.journal == s.journal
  {
    hide Undo, Covered, Replayable;
    var undo := s.journal.value;
    UndoSafe(tape, s, undo, |undo|, true, foreign);
    var (s1, exit) := Undo(tape, s, undo, |undo|, true);
    if exit.Done? {
      UndoDoneGone(tape, s, undo, |undo|, true, foreign);
      AllGone(undo, s1.net, foreign);
    }
  }

  /** A cleanup that reports success has undone everything, whatever happened
      to earlier cleanups. */
  lemma {:induction false} UndoDoneGone(tape: Tape, s: State, undo: seq<Cmd>, n: nat, clean: bool, foreign: Net)
    requires n <= |undo| && s.journal == Some(undo) && Recorded(s, foreign)
    requires clean ==> forall m :: n <= m < |undo| ==> Gone(s.net, undo[m])
    ensures Undo(tape, s, undo, n, clean).1.Done? ==>
      forall m :: 0 <= m < |undo| ==> Gone(Undo(tape, s, undo, n, clean).0.net, undo[m])
    decreases n
  {
    hide Covered, Replayable;
    if n > 0 {
      var c := undo[n - 1];
      var (s1, ran) := RunCmd(tape, s, c);
      UndoCovered(undo, s.net, foreign, c);
      if !ran.Crashed? {
        var good := ran.Done? || (tape(s.clock).Succeed? && AlreadyAbsent(s.net, c));
        if clean && good {
          forall m | n <= m < |undo| ensures Gone(s1.net, undo[m]) { GoneStays(s.net, undo[m], c); }
          assert Gone(s1.net, c);
        }
        UndoDoneGone(tape, s1, undo, n - 1, clean && good, foreign);
      }
    }
  }
}
