/** The module's route commands as they run: loops over the journal file and
    the kernel, returning at the first error. */
module RouteControl {
  import opened Text
  import opened Routes

  class RouteModule {
    const tape: Tape
    var net: Net
    var journal: Option<seq<Cmd>>
    var clock: nat

    ghost function View(): State reads this {
      State(net, journal, clock)
    }

    method RouteCmd(c: Cmd) returns (exit: Exit, absent: bool)
      modifies this
      ensures (View(), exit) == RunCmd(tape, old(View()), c)
      ensures absent == (tape(old(clock)).Succeed? && AlreadyAbsent(old(net), c))
    {
      var v := tape(clock);
      exit := if v.Crash? then Crashed else if v.Succeed? && Accepts(net, c) then Done else Failed;
      absent := v.Succeed? && AlreadyAbsent(net, c);
      if v.Succeed? || v.effect {
        net := Exec(net, c);
      }
      clock := clock + 1;
    }

    method WriteRoutes(undo: seq<Cmd>) returns (exit: Exit)
      modifies this
      ensures (View(), exit) == Write(tape, old(View()), undo)
    {
      var v := tape(clock);
      clock := clock + 1;
      if v.Succeed? || v.effect {
        journal := Some(undo);
      }
      exit := match v case Succeed => Done case Fail(_) => Failed case Crash(_) => Crashed;
    }

    method CleanupRoutes() returns (exit: Exit)
      modifies this
      ensures (View(), exit) == Cleanup(tape, old(View()))
    {
      if journal.None? {
        return Failed;
      }
      var undo := journal.value;
      var i := |undo|;
      var clean := true;
      while i > 0
        invariant 0 <= i <= |undo|
        invariant Undo(tape, old(View()), undo, |undo|, true) == Undo(tape, View(), undo, i, clean)
      {
        var ran, absent := RouteCmd(undo[i - 1]);
        if ran.Crashed? {
          return Crashed;
        }
        clean := clean && (ran.Done? || absent);
        i := i - 1;
      }
      if !clean {
        return Failed;
      }
      var v := tape(clock);
      clock := clock + 1;
      if v.Succeed? || v.effect {
        journal := None;
      }
      exit := match v case Succeed => Done case Fail(_) => Failed case Crash(_) => Crashed;
    }

    /** `add`: record the undo, then act. */
    method Add(undo: seq<Cmd>, act: Cmd, inverse: Cmd, ghost rest: seq<Act>) returns (exit: Exit)
      modifies this
      ensures RunActs(tape, old(View()), undo, [Journaled(act, inverse)] + rest) ==
        if exit.Done? then RunActs(tape, View(), undo + [inverse], rest) else (View(), exit)
    {
      assert ([Journaled(act, inverse)] + rest)[1..] == rest;
      exit := WriteRoutes(undo + [inverse]);
      if exit.Done? {
        var absent;
        exit, absent := RouteCmd(act);
      }
    }

    /** A command whose undo is already recorded. */
    method Apply(undo: seq<Cmd>, act: Cmd, ghost rest: seq<Act>) returns (exit: Exit)
      modifies this
      ensures RunActs(tape, old(View()), undo, [Plain(act)] + rest) ==
        if exit.Done? then RunActs(tape, View(), undo, rest) else (View(), exit)
    {
      assert ([Plain(act)] + rest)[1..] == rest;
      var absent;
      exit, absent := RouteCmd(act);
    }

    method InstallChain(tool: Tool, undo: seq<Cmd>, ghost rest: seq<Act>) returns (exit: Exit)
      modifies this
      ensures RunActs(tape, old(View()), undo, ChainActs(tool) + rest) ==
        if exit.Done? then RunActs(tape, View(), undo + [DropChain(tool), FlushChain(tool)], rest) else (View(), exit)
    {
      ghost var tail := if tool == Iptables then [Plain(AppendRule(tool, RejectUdp))]
        else [Plain(AppendRule(tool, ReturnLoopback)), Plain(AppendRule(tool, RejectAll))];
      ghost var noted := [Note(FlushChain(tool))];
      assert ChainActs(tool) + rest == [Journaled(NewChain(tool), DropChain(tool))] + (noted + (tail + rest));
      exit := Add(undo, NewChain(tool), DropChain(tool), noted + (tail + rest));
      if !exit.Done? {
        return;
      }
      assert (noted + (tail + rest))[1..] == tail + rest;
      var recorded := undo + [DropChain(tool)] + [FlushChain(tool)];
      assert recorded == undo + [DropChain(tool), FlushChain(tool)];
      exit := WriteRoutes(recorded);
      if !exit.Done? {
        return;
      }
      if tool == Iptables {
        exit := Apply(recorded, AppendRule(tool, RejectUdp), rest);
      } else {
        ghost var last := [Plain(AppendRule(tool, RejectAll))];
        assert tail + rest == [Plain(AppendRule(tool, ReturnLoopback))] + (last + rest);
        exit := Apply(recorded, AppendRule(tool, ReturnLoopback), last + rest);
        if exit.Done? {
          exit := Apply(recorded, AppendRule(tool, RejectAll), rest);
        }
      }
    }

    method InstallBypasses(cidrs: seq<Option<string>>, undo: seq<Cmd>, ghost rest: seq<Act>) returns (recorded: seq<Cmd>, exit: Exit)
      modifies this
      ensures RunActs(tape, old(View()), undo, BypassActs(cidrs, {}) + rest) ==
        if exit.Done? then RunActs(tape, View(), recorded, rest) else (View(), exit)
    {
      var i := 0;
      var seen: set<string> := {};
      recorded, exit := undo, Done;
      assert cidrs[0..] == cidrs;
      while i < |cidrs|
        invariant 0 <= i <= |cidrs| && exit == Done
        invariant RunActs(tape, old(View()), undo, BypassActs(cidrs, {}) + rest) ==
          RunActs(tape, View(), recorded, BypassActs(cidrs[i..], seen) + rest)
      {
        assert cidrs[i..][0] == cidrs[i] && cidrs[i..][1..] == cidrs[i + 1..];
        if cidrs[i].None? {
          exit := Apply(recorded, BadBypass, rest);
          return;
        }
        var cidr := cidrs[i].value;
        i := i + 1;
        if cidr !in seen {
          ghost var route := [Journaled(AddRoute(Throw(cidr)), DelRoute(Throw(cidr)))];
          ghost var more := BypassActs(cidrs[i..], seen + {cidr});
          assert BypassActs(cidrs[i - 1..], seen) + rest
            == [Plain(InsertRule(Iptables, Bypass(cidr)))] + (route + (more + rest));
          seen := seen + {cidr};
          exit := Apply(recorded, InsertRule(Iptables, Bypass(cidr)), route + (more + rest));
          if !exit.Done? {
            return;
          }
          exit := Add(recorded, AddRoute(Throw(cidr)), DelRoute(Throw(cidr)), more + rest);
          if !exit.Done? {
            return;
          }
          recorded := recorded + [DelRoute(Throw(cidr))];
        }
      }
      assert BypassActs(cidrs[i..], seen) + rest == rest;
    }

    method InstallRanges(ranges: seq<string>, undo: seq<Cmd>) returns (exit: Exit)
      modifies this
      ensures (View(), exit) == RunActs(tape, old(View()), undo, RangesActs(ranges))
    {
      var i := 0;
      var recorded := undo;
      exit := Done;
      assert ranges[0..] == ranges;
      while i < |ranges|
        invariant 0 <= i <= |ranges| && exit == Done
        invariant RunActs(tape, old(View()), undo, RangesActs(ranges)) == RunActs(tape, View(), recorded, RangesActs(ranges[i..]))
      {
        var r := ranges[i];
        assert ranges[i..][0] == r && ranges[i..][1..] == ranges[i + 1..];
        ghost var more := RangesActs(ranges[i + 1..]);
        ghost var last := [Journaled(AddPolicy(r), DelPolicy(r))] + more;
        ghost var both := [Journaled(AddJump(Ip6tables, r), DelJump(Ip6tables, r))] + last;
        assert RangesActs(ranges[i..]) == [Journaled(AddJump(Iptables, r), DelJump(Iptables, r))] + both;
        exit := Add(recorded, AddJump(Iptables, r), DelJump(Iptables, r), both);
        if !exit.Done? {
          return;
        }
        recorded := recorded + [DelJump(Iptables, r)];
        exit := Add(recorded, AddJump(Ip6tables, r), DelJump(Ip6tables, r), last);
        if !exit.Done? {
          return;
        }
        recorded := recorded + [DelJump(Ip6tables, r)];
        exit := Add(recorded, AddPolicy(r), DelPolicy(r), more);
        if !exit.Done? {
          return;
        }
        recorded := recorded + [DelPolicy(r)];
        i := i + 1;
      }
      assert RangesActs(ranges[i..]) == [Plain(StartWatcher)] + [];
      exit := Apply(recorded, StartWatcher, []);
    }

    method Install(cidrs: seq<Option<string>>, ranges: seq<string>) returns (exit: Exit)
      modifies this
      ensures (View(), exit) == RunActs(tape, old(View()), [], Program(cidrs, ranges))
    {
      ghost var ranged := RangesActs(ranges);
      ghost var bypassed := BypassActs(cidrs, {}) + ranged;
      ghost var routed := [Journaled(AddRoute(Default), DelRoute(Default))] + bypassed;
      exit := InstallChain(Iptables, [], ChainActs(Ip6tables) + routed);
      if !exit.Done? {
        return;
      }
      var undo := [] + [DropChain(Iptables), FlushChain(Iptables)];
      exit := InstallChain(Ip6tables, undo, routed);
      if !exit.Done? {
        return;
      }
      undo := undo + [DropChain(Ip6tables), FlushChain(Ip6tables)];
      exit := Add(undo, AddRoute(Default), DelRoute(Default), bypassed);
      if !exit.Done? {
        return;
      }
      undo, exit := InstallBypasses(cidrs, undo + [DelRoute(Default)], ranged);
      if !exit.Done? {
        return;
      }
      exit := InstallRanges(ranges, undo);
    }

    method StartRoutes(config: Config) returns (exit: Exit)
      modifies this
      ensures (View(), exit) == Start(tape, old(View()), config)
    {
      hide RunActs, Program, Cleanup;
      if journal.Some? {
        exit := CleanupRoutes();
        if !exit.Done? {
          return;
        }
      }
      if config.Off? {
        return Done;
      }
      if config.Rejected? {
        return Failed;
      }
      var free := (if tape(clock).Succeed? then net.routes == {} else !tape(clock).effect)
        && (tape(clock + 1).Succeed? ==> Iptables !in net.chains)
        && (tape(clock + 2).Succeed? ==> Ip6tables !in net.chains);
      clock := clock + 3;
      if !free {
        return Failed;
      }
      exit := WriteRoutes([]);
      if !exit.Done? {
        return;
      }
      exit := Install(config.cidrs, config.ranges);
      if exit.Failed? {
        var undone := CleanupRoutes();
        exit := if undone.Crashed? then Crashed else Failed;
      }
    }
  }
}
