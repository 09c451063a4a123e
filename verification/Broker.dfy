/** worker_broker_linux.go: the serial command registry, the broker loop that
    admits a worker's commands one at a time, and the worker's side of it. */
module Broker {
  import opened Text
  import opened Plan
  import H = Handoff
  import Tools
  import PlanMeaning

  // ---- which commands a worker may ask for ----

  const OBSERVATIONS: seq<seq<string>> := [
    ["iptables", "-w", "2", "-t", "mangle", "-S"],
    ["ip", "rule", "show"],
    ["ip", "route", "show", "table", "all"]
  ]

  /** An observation, or the addition, removal or check of a planned step. */
  predicate Allowed(p: DestinationPlan, args: seq<string>) {
    args in OBSERVATIONS ||
    match Steps(p)
    case None => false
    case Some(steps) => exists k :: 0 <= k < |steps| && StepAllows(steps[k], args)
  }

  predicate StepAllows(step: Step, args: seq<string>) {
    args == step.add || args == step.remove || args == CheckForm(step.remove)
  }

  /** An allowed command only looks, or makes, takes away or asks for one of the
      plan's own things. */
  lemma AllowedMeans(p: DestinationPlan, args: seq<string>)
    requires Allowed(p, args) && args !in OBSERVATIONS
    ensures exists i :: 0 <= i < 8 && OfStep(p, i, args)
  {
    hide PlanMeaning.StepThing, Tools.Meaning, CheckForm;
    var steps := Steps(p).value;
    var k :| 0 <= k < |steps| && StepAllows(steps[k], args);
    PlanMeaning.PlanMeans(p, k);
    if args != steps[k].add && args != steps[k].remove && k !in PlanMeaning.RULE_STEPS { NoOption(p, k); }
    assert OfStep(p, k, args);
  }

  /** Everything the controller runs is allowed: both commands of every step and the
      check that goes with it. */
  lemma ControllerAllowed(p: DestinationPlan, i: nat, intent: string)
    requires ValidPlan(p) && i < 8
    ensures Allowed(p, PlanMeaning.CommandOf(p, intent, i)) && Allowed(p, PlanMeaning.CheckOf(p, i))
  {
    hide CheckForm;
    var steps := Steps(p).value;
    assert StepAllows(steps[i], PlanMeaning.CommandOf(p, intent, i)) && StepAllows(steps[i], PlanMeaning.CheckOf(p, i));
  }

  predicate OfStep(p: DestinationPlan, i: nat, args: seq<string>)
    requires i < 8
  {
    var t := PlanMeaning.StepThing(p, i);
    Tools.Meaning(args) in {Some(Tools.Make(t)), Some(Tools.Take(t)), Some(Tools.Ask(t))}
  }

  /** The removals of chains, route and policy have no delete option to change. */
  lemma NoOption(p: DestinationPlan, k: nat)
    requires ValidPlan(p) && k in {0, 1, 2, 5}
    ensures CheckForm(Steps(p).value[k].remove) == Steps(p).value[k].remove
  {
    hide AddressText, FormatUint, MarkText, PreChain, OutChain;
    var args := Steps(p).value[k].remove;
    forall j | 0 <= j < |args| ensures args[j] != "-D" { WordsNotDelete(p); }
    CheckFormSame(args);
  }

  lemma WordsNotDelete(p: DestinationPlan)
    requires ValidPlan(p)
    ensures AddressText(p.address) + "/32" != "-D" && FormatUint(p.table) != "-D" && FormatUint(p.priority) != "-D"
    ensures MarkText(p) != "-D" && PreChain(p) != "-D" && OutChain(p) != "-D"
  {
    assert |AddressText(p.address) + "/32"| >= 3;
    assert IsDigit(FormatUint(p.table)[0]) && IsDigit(FormatUint(p.priority)[0]);
    assert MarkText(p)[0] == "0x"[0];
    assert |PreChain(p)| > 2 && |OutChain(p)| > 2;
  }

  lemma {:induction false} CheckFormSame(args: seq<string>)
    requires forall j :: 0 <= j < |args| ==> args[j] != "-D"
    ensures CheckForm(args) == args
    decreases |args|
  {
    if args != [] {
      assert forall j :: 0 <= j < |args[1..]| ==> args[1..][j] == args[j + 1];
      CheckFormSame(args[1..]);
    }
  }

  method BrokerAllowed(p: DestinationPlan, args: seq<string>) returns (allowed: bool)
    ensures allowed == Allowed(p, args)
  {
    hide Steps;
    for k := 0 to |OBSERVATIONS|
      invariant forall j :: 0 <= j < k ==> OBSERVATIONS[j] != args
    {
      if OBSERVATIONS[k] == args { return true; }
    }
    match Steps(p) {
      case None => return false;
      case Some(steps) =>
        for k := 0 to |steps|
          invariant forall j :: 0 <= j < k ==> !StepAllows(steps[j], args)
        {
          if args == steps[k].add || args == steps[k].remove { return true; }
          var check := FirstDeleteToCheck(steps[k].remove);
          if args == check { return true; }
        }
        return false;
    }
  }

  lemma CheckFormSkips(args: seq<string>, i: nat)
    requires i < |args| && args[i] != "-D"
    ensures args[..i] + CheckForm(args[i..]) == args[..i + 1] + CheckForm(args[i + 1..])
  {
    assert args[i..][1..] == args[i + 1..];
    var rest := CheckForm(args[i + 1..]);
    assert args[..i] + ([args[i]] + rest) == (args[..i] + [args[i]]) + rest;
  }

  method FirstDeleteToCheck(remove: seq<string>) returns (check: seq<string>)
    ensures check == CheckForm(remove)
  {
    check := remove;
    for i := 0 to |remove|
      invariant check == remove
      invariant CheckForm(remove) == remove[..i] + CheckForm(remove[i..])
    {
      if remove[i] == "-D" {
        check := remove[i := "-C"];
        assert CheckForm(remove[i..]) == ["-C"] + remove[i..][1..];
        return;
      }
      CheckFormSkips(remove, i);
    }
  }

  // ---- the registry ----

  datatype Tally = Tally(requested: nat, completed: nat, active: bool, blocked: bool, sealed: bool)

  function Reserve(r: Tally, id: nat): (Tally, bool) {
    if r.blocked || r.sealed || r.active || id != r.requested + 1 then (r.(blocked := true), false)
    else (r.(requested := id, active := true), true)
  }

  function Finish(r: Tally, quiet: bool): Tally {
    r.(blocked := r.blocked || !r.active || !quiet,
       completed := if quiet && r.active then r.completed + 1 else r.completed,
       active := false)
  }

  predicate CleanGate(r: Tally) {
    r.sealed && !r.blocked && !r.active && r.requested == r.completed
  }

  class WorkerCommandRegistry {
    var requested: nat
    var completed: nat
    var active: bool
    var blocked: bool
    var sealed: bool

    ghost function Now(): Tally
      reads this
    {
      Tally(requested, completed, active, blocked, sealed)
    }

    constructor ()
      ensures Now() == Tally(0, 0, false, false, false)
    {
      requested, completed, active, blocked, sealed := 0, 0, false, false, false;
    }

    method ReserveId(id: nat) returns (ok: bool)
      modifies this
      ensures (Now(), ok) == Reserve(old(Now()), id)
    {
      if blocked || sealed || active || id != requested + 1 {
        blocked := true;
        return false;
      }
      requested := id;
      active := true;
      ok := true;
    }

    method FinishCommand(quiet: bool)
      modifies this
      ensures Now() == Finish(old(Now()), quiet)
    {
      if !active || !quiet { blocked := true; }
      if quiet && active { completed := completed + 1; }
      active := false;
    }

    method IsCleanGate() returns (clean: bool)
      ensures clean == CleanGate(Now())
    {
      clean := sealed && !blocked && !active && requested == completed;
    }
  }

  // ---- the broker loop ----

  /** What startRegisteredScopedCommand and its session come to: one run of the
      handoff protocol, up to the moment its session is waited for. */
  datatype Launch = Launch(started: bool, c: H.Setting, start: H.World, actions: seq<H.Action>, output: string)

  function EndOf(l: Launch): H.World {
    H.Play(l.c, l.start, l.actions)
  }

  /** The session was started and reported quiescent. */
  predicate Quiet(l: Launch) {
    l.started && H.SessionQuiescent(l.c, EndOf(l), true)
  }

  predicate Proper(l: Launch) {
    H.Start(l.c, l.start) && H.Distinct(l.c)
  }

  /** Guard, anchor and command have exited, whatever happens from here on. */
  ghost predicate Gone(l: Launch) {
    forall later :: NoneAlive(l.c, H.Play(l.c, EndOf(l), later))
  }

  predicate NoneAlive(c: H.Setting, w: H.World) {
    c.guard !in w.alive && c.anchor !in w.alive && c.command !in w.alive
  }

  lemma QuietIsGone(l: Launch)
    requires Proper(l) && Quiet(l)
    ensures Gone(l)
  {
    hide H.Play, H.Start;
    forall later ensures NoneAlive(l.c, H.Play(l.c, EndOf(l), later)) {
      H.QuiescentMeansExited(l.c, l.start, l.actions, later, true);
    }
  }

  /** What the loop receives next, and how it would go on. */
  datatype Packet =
    | Ended                   // end of file or cancelled
    | Garbled                 // a receive error
    | Request(wellFormed: bool, leaseIsLock: bool, bindingKept: bool, id: nat, args: seq<string>,
              launch: Launch, replySent: bool)

  /** A command that was reserved, and what became of it. */
  datatype Started = Started(id: nat, args: seq<string>, launch: Launch)

  datatype Reply = Reply(id: nat, args: seq<string>, output: string)

  datatype Loop = Loop(registry: Tally, started: seq<Started>, replies: seq<Reply>, stopped: bool, returned: bool)

  const INITIAL_LOOP := Loop(Tally(0, 0, false, false, false), [], [], false, false)

  predicate Admissible(p: DestinationPlan, q: Packet) {
    q.Request? && q.wellFormed && q.leaseIsLock && q.bindingKept && Allowed(p, q.args)
  }

  /** One turn of the loop; after it returned nothing more happens. */
  function Turn(p: DestinationPlan, b: Loop, q: Packet): Loop {
    if b.returned then b
    else
      match q
      case Ended => b.(returned := true)
      case Garbled => b.(registry := b.registry.(blocked := true), stopped := true, returned := true)
      case Request(_, _, _, id, args, launch, replySent) =>
        if !Admissible(p, q) || !Reserve(b.registry, id).1 then
          b.(registry := (if Admissible(p, q) then Reserve(b.registry, id).0 else b.registry).(blocked := true),
             stopped := true, returned := true)
        else
          var quiet := Quiet(launch);
          var ran := b.(registry := Finish(Reserve(b.registry, id).0, quiet),
                        started := b.started + [Started(id, args, launch)]);
          if ran.registry.blocked then ran.(stopped := true, returned := true)
          else if !replySent then ran.(stopped := true, returned := true)
          else ran.(replies := ran.replies + [Reply(id, args, launch.output)])
  }

  function Turns(p: DestinationPlan, b: Loop, packets: seq<Packet>): Loop
    decreases |packets|
  {
    if packets == [] then b else Turns(p, Turn(p, b, packets[0]), packets[1..])
  }

  /** The whole loop: whatever ends it, the registry is sealed on the way out. */
  function RunLoop(p: DestinationPlan, packets: seq<Packet>): Loop {
    var b := Turns(p, INITIAL_LOOP, packets);
    b.(registry := b.registry.(sealed := true))
  }

  /** `workerBroker.run`; the packets end with the channel. */
  method ServeWorker(p: DestinationPlan, registry: WorkerCommandRegistry, packets: seq<Packet>)
    returns (started: seq<Started>, replies: seq<Reply>, stopped: bool)
    requires registry.Now() == INITIAL_LOOP.registry
    modifies registry
    ensures var b := RunLoop(p, packets);
      registry.Now() == b.registry && started == b.started && replies == b.replies && stopped == b.stopped
  {
    hide Allowed, Quiet;
    started, replies, stopped := [], [], false;
    var k := 0;
    var running := true;
    while running && k < |packets|
      invariant 0 <= k <= |packets|
      invariant Turns(p, INITIAL_LOOP, packets)
             == Turns(p, Loop(registry.Now(), started, replies, stopped, !running), packets[k..])
    {
      var q := packets[k];
      assert packets[k..][0] == q && packets[k..][1..] == packets[k + 1..];
      k := k + 1;
      match q {
        case Ended => running := false;
        case Garbled =>
          registry.blocked := true;
          stopped := true;
          running := false;
        case Request(wellFormed, leaseIsLock, bindingKept, id, args, launch, replySent) =>
          var allowed := BrokerAllowed(p, args);
          var valid := wellFormed && leaseIsLock && bindingKept && allowed;
          var reserved := false;
          if valid { reserved := registry.ReserveId(id); }
          if !valid || !reserved {
            registry.blocked := true;
            stopped := true;
            running := false;
          } else {
            started := started + [Started(id, args, launch)];
            var quiet := Quiet(launch);
            registry.FinishCommand(quiet);
            if registry.blocked {
              stopped := true;
              running := false;
            } else if !replySent {
              stopped := true;
              running := false;
            } else {
              replies := replies + [Reply(id, args, launch.output)];
            }
          }
      }
    }
    ReturnedLoopStays(p, Loop(registry.Now(), started, replies, stopped, !running), packets[k..]);
    registry.sealed := true;
  }

  lemma {:induction false} ReturnedLoopStays(p: DestinationPlan, b: Loop, packets: seq<Packet>)
    ensures b.returned ==> Turns(p, b, packets) == b
    decreases |packets|
  {
    hide Allowed;
    if b.returned && packets != [] { ReturnedLoopStays(p, b, packets[1..]); }
  }

  // ---- the gate ----

  /** Every command starts as the protocol does, paused with one gate. */
  predicate ProperPackets(packets: seq<Packet>) {
    forall k :: 0 <= k < |packets| && packets[k].Request? ==> Proper(packets[k].launch)
  }

  /** Between turns no command is active, the started commands are numbered
      1, 2, ... without gaps, and unless the registry is blocked every one of
      them is counted and has exited. */
  ghost predicate Accounted(p: DestinationPlan, b: Loop) {
    && !b.registry.active && !b.registry.sealed
    && b.registry.requested == |b.started|
    && (forall k :: 0 <= k < |b.started| ==> b.started[k].id == k + 1 && Allowed(p, b.started[k].args))
    && (!b.registry.blocked ==>
          && b.registry.completed == b.registry.requested
          && forall k :: 0 <= k < |b.started| ==> Gone(b.started[k].launch))
    && (b.registry.blocked ==> b.returned && b.stopped)
    && |b.replies| <= |b.started|
    && (forall k :: 0 <= k < |b.replies| ==> b.replies[k].id == k + 1 && b.replies[k].args == b.started[k].args)
    && (!b.returned ==> |b.replies| == |b.started|)
  }

  lemma TurnAccounted(p: DestinationPlan, b: Loop, q: Packet)
    requires Accounted(p, b) && (q.Request? ==> Proper(q.launch))
    ensures Accounted(p, Turn(p, b, q))
    ensures b.registry.blocked ==> Turn(p, b, q).registry.blocked
  {
    hide Allowed, Quiet, Gone, Proper;
    if q.Request? && Quiet(q.launch) { QuietIsGone(q.launch); }
  }

  lemma {:induction false} TurnsAccounted(p: DestinationPlan, b: Loop, packets: seq<Packet>)
    requires Accounted(p, b) && ProperPackets(packets)
    ensures Accounted(p, Turns(p, b, packets))
    ensures b.registry.blocked ==> Turns(p, b, packets).registry.blocked
    decreases |packets|
  {
    hide Allowed, Turn, Accounted;
    if packets != [] {
      TurnAccounted(p, b, packets[0]);
      assert ProperPackets(packets[1..]);
      TurnsAccounted(p, Turn(p, b, packets[0]), packets[1..]);
    }
  }

  /** For every sequence of requests, replies and failures: only commands of the
      plan are launched, their ids are exactly 1..Requested in order, and if the
      gate is clean at the end the guard, anchor and process of every command
      that was reserved have exited for good.
      Conversely a broker that was never blocked always ends with a clean gate. */
  lemma CleanGateMeansExited(p: DestinationPlan, packets: seq<Packet>)
    requires ProperPackets(packets)
    ensures var b := RunLoop(p, packets);
      && b.registry.requested == |b.started|
      && (forall k :: 0 <= k < |b.started| ==> b.started[k].id == k + 1 && Allowed(p, b.started[k].args))
      && (CleanGate(b.registry) <==> !b.registry.blocked)
      && (CleanGate(b.registry) ==> forall k :: 0 <= k < |b.started| ==> Gone(b.started[k].launch))
  {
    hide Allowed, Turns, Gone;
    TurnsAccounted(p, INITIAL_LOOP, packets);
  }

  /** A request in its proper form, made with the journal's own lock, while state
      and plan are those the broker was started for. */
  predicate Permitted(q: Packet) {
    q.Request? && q.wellFormed && q.leaseIsLock && q.bindingKept
  }

  ghost predicate AskedFor(packets: seq<Packet>, s: Started) {
    exists q :: q in packets && Permitted(q) && q.id == s.id && q.args == s.args && q.launch == s.launch
  }

  lemma {:induction false} TurnsAskedFor(p: DestinationPlan, b: Loop, packets: seq<Packet>, all: seq<Packet>)
    requires (forall q :: q in packets ==> q in all) && forall s :: s in b.started ==> AskedFor(all, s)
    ensures forall s :: s in Turns(p, b, packets).started ==> AskedFor(all, s)
    decreases |packets|
  {
    hide Allowed, Quiet, AskedFor;
    if packets != [] {
      var q := packets[0];
      var next := Turn(p, b, q);
      assert q in packets && forall x :: x in packets[1..] ==> x in packets;
      forall s | s in next.started ensures AskedFor(all, s) {
        if s !in b.started { OneAskedFor(p, b, q, all, s); }
      }
      TurnsAskedFor(p, next, packets[1..], all);
    }
  }

  lemma OneAskedFor(p: DestinationPlan, b: Loop, q: Packet, all: seq<Packet>, s: Started)
    requires q in all && s in Turn(p, b, q).started && s !in b.started
    ensures AskedFor(all, s)
  {
    hide Allowed, Quiet;
    assert q.Request? && s == Started(q.id, q.args, q.launch);
  }

  /** No command is launched that was not asked for in this way. */
  lemma StartedWereAskedFor(p: DestinationPlan, packets: seq<Packet>)
    ensures forall s :: s in RunLoop(p, packets).started ==> AskedFor(packets, s)
  {
    hide Turns, AskedFor;
    TurnsAskedFor(p, INITIAL_LOOP, packets, packets);
  }

  /** How many of the commands ended quietly. */
  function QuietCount(started: seq<Started>): nat
    decreases |started|
  {
    if started == [] then 0
    else
      var n := |started| - 1;
      QuietCount(started[..n]) + if Quiet(started[n].launch) then 1 else 0
  }

  ghost predicate WasSent(packets: seq<Packet>, r: Reply) {
    exists q :: q in packets && Permitted(q) && Quiet(q.launch) && q.replySent && r == Reply(q.id, q.args, q.launch.output)
  }

  /** What the counters and the replies say so far. */
  ghost predicate Truthful(b: Loop, all: seq<Packet>) {
    && b.registry.completed == QuietCount(b.started) && !b.registry.active && !b.registry.sealed
    && forall r :: r in b.replies ==> WasSent(all, r)
  }

  lemma TurnTruthful(p: DestinationPlan, b: Loop, q: Packet, all: seq<Packet>)
    requires Truthful(b, all) && q in all
    ensures Truthful(Turn(p, b, q), all)
  {
    hide Allowed, Quiet, WasSent;
    var next := Turn(p, b, q);
    if next.started != b.started {
      assert next.started == b.started + [Started(q.id, q.args, q.launch)];
      assert next.started[..|b.started|] == b.started;
    }
    forall r | r in next.replies ensures WasSent(all, r) {
      if r !in b.replies { NewReply(p, b, q, all, r); }
    }
  }

  lemma NewReply(p: DestinationPlan, b: Loop, q: Packet, all: seq<Packet>, r: Reply)
    requires q in all && r in Turn(p, b, q).replies && r !in b.replies && !b.registry.active
    ensures WasSent(all, r)
  {
    hide Allowed, Quiet;
    assert q.Request? && r == Reply(q.id, q.args, q.launch.output) && q.replySent;
  }

  lemma {:induction false} TurnsTruthful(p: DestinationPlan, b: Loop, packets: seq<Packet>, all: seq<Packet>)
    requires Truthful(b, all) && forall q :: q in packets ==> q in all
    ensures Truthful(Turns(p, b, packets), all)
    decreases |packets|
  {
    hide Truthful, Turn;
    if packets != [] {
      assert packets[0] in packets && forall x :: x in packets[1..] ==> x in packets;
      TurnTruthful(p, b, packets[0], all);
      TurnsTruthful(p, Turn(p, b, packets[0]), packets[1..], all);
    }
  }

  /** Over every run of the loop: the completed commands are those that ended quietly,
      every reply is the output of such a command and was sent, and the gate is not
      clean before the loop has been left. */
  lemma RegistryTruthful(p: DestinationPlan, packets: seq<Packet>)
    ensures var b := RunLoop(p, packets);
      b.registry.completed == QuietCount(b.started) && (forall r :: r in b.replies ==> WasSent(packets, r))
    ensures !CleanGate(Turns(p, INITIAL_LOOP, packets).registry)
  {
    hide Turns, WasSent;
    TurnsTruthful(p, INITIAL_LOOP, packets, packets);
  }

  /** Requests as a worker sends them, the k-th with id `done` + k + 1, each for an
      allowed command that ends quietly and is answered. */
  predicate Orderly(p: DestinationPlan, packets: seq<Packet>, done: nat) {
    forall k :: 0 <= k < |packets| ==>
      Permitted(packets[k]) && Allowed(p, packets[k].args) && packets[k].id == done + k + 1
      && Quiet(packets[k].launch) && packets[k].replySent
  }

  function RepliesTo(packets: seq<Packet>): (r: seq<Reply>)
    requires forall k :: 0 <= k < |packets| ==> packets[k].Request?
    ensures |r| == |packets|
    ensures forall k :: 0 <= k < |packets| ==> r[k] == Reply(packets[k].id, packets[k].args, packets[k].launch.output)
    decreases |packets|
  {
    if packets == [] then []
    else [Reply(packets[0].id, packets[0].args, packets[0].launch.output)] + RepliesTo(packets[1..])
  }

  lemma OneServed(p: DestinationPlan, b: Loop, q: Packet)
    requires Permitted(q) && Allowed(p, q.args) && q.id == b.registry.requested + 1 && Quiet(q.launch) && q.replySent
    requires !b.returned && !b.registry.blocked && !b.registry.sealed && !b.registry.active
    ensures Turn(p, b, q) == b.(
      registry := b.registry.(requested := q.id, completed := b.registry.completed + 1),
      started := b.started + [Started(q.id, q.args, q.launch)],
      replies := b.replies + [Reply(q.id, q.args, q.launch.output)])
  {
    hide Allowed, Quiet;
  }

  lemma {:induction false} ServedOn(p: DestinationPlan, b: Loop, packets: seq<Packet>)
    requires Orderly(p, packets, b.registry.requested) && !b.returned
    requires !b.registry.blocked && !b.registry.sealed && !b.registry.active
    ensures var end := Turns(p, b, packets);
      && !end.returned && end.stopped == b.stopped && end.replies == b.replies + RepliesTo(packets)
      && !end.registry.blocked && !end.registry.active && end.registry.requested == b.registry.requested + |packets|
      && end.registry.completed - b.registry.completed == |packets|
    decreases |packets|
  {
    hide Allowed, Quiet, Turn;
    if packets != [] {
      OneServed(p, b, packets[0]);
      var next := Turn(p, b, packets[0]);
      assert Orderly(p, packets[1..], next.registry.requested) by {
        assert forall k :: 0 <= k < |packets[1..]| ==> packets[1..][k] == packets[k + 1];
      }
      ServedOn(p, next, packets[1..]);
      var first := [Reply(packets[0].id, packets[0].args, packets[0].launch.output)];
      assert (b.replies + first) + RepliesTo(packets[1..]) == b.replies + (first + RepliesTo(packets[1..]));
    }
  }

  /** Nothing but a fault stops the service: every orderly run of requests is
      answered, each with the output of its own command, and ends clean. */
  lemma ServedAll(p: DestinationPlan, packets: seq<Packet>)
    requires Orderly(p, packets, 0)
    ensures var b := RunLoop(p, packets);
      b.replies == RepliesTo(packets) && !b.stopped && CleanGate(b.registry) && b.registry.completed == |packets|
  {
    hide Turns, RepliesTo, Orderly;
    assert Orderly(p, packets, INITIAL_LOOP.registry.requested);
    assert forall k :: 0 <= k < |packets| ==> packets[k].Request? by { OrderlyRequests(p, packets, 0); }
    ServedOn(p, INITIAL_LOOP, packets);
    assert [] + RepliesTo(packets) == RepliesTo(packets);
  }

  lemma OrderlyRequests(p: DestinationPlan, packets: seq<Packet>, done: nat)
    requires Orderly(p, packets, done)
    ensures forall k :: 0 <= k < |packets| ==> packets[k].Request?
  {
    hide Allowed, Quiet;
  }

  // ---- the worker's side ----

  datatype Client = Client(id: nat, blocked: bool)

  /** One call of the client runner: what came back, if anything did. */
  datatype Call = Call(args: seq<string>, sent: bool, response: Option<Response>)

  datatype Response = Response(version: nat, id: nat, quiet: bool, args: seq<string>, output: string)

  function CallOnce(p: DestinationPlan, c: Client, call: Call): (Client, Option<string>) {
    if c.blocked || !Allowed(p, call.args) then (c.(blocked := true), None)
    else
      var next := c.(id := c.id + 1);
      if !call.sent || call.response.None? then (next.(blocked := true), None)
      else
        var r := call.response.value;
        if r.version != 1 || r.id != next.id || !r.quiet || r.args != call.args then (next.(blocked := true), None)
        else (next, Some(r.output))
  }

  /** The outputs a worker accepts over a run of calls. */
  function Accepted(p: DestinationPlan, c: Client, calls: seq<Call>): seq<Reply>
    decreases |calls|
  {
    if calls == [] then []
    else
      var (next, output) := CallOnce(p, c, calls[0]);
      (if output.Some? then [Reply(next.id, calls[0].args, output.value)] else []) + Accepted(p, next, calls[1..])
  }

  lemma {:induction false} BlockedClientAcceptsNothing(p: DestinationPlan, c: Client, calls: seq<Call>)
    requires c.blocked
    ensures Accepted(p, c, calls) == []
    decreases |calls|
  {
    hide Allowed;
    if calls != [] { BlockedClientAcceptsNothing(p, c, calls[1..]); }
  }

  /** The replies of a channel, as the client reads them. */
  predicate FromReplies(calls: seq<Call>, replies: seq<Reply>) {
    forall k :: 0 <= k < |calls| && calls[k].response.Some? ==>
      var r := calls[k].response.value;
      exists j :: 0 <= j < |replies| && replies[j] == Reply(r.id, r.args, r.output)
  }

  predicate Numbered(replies: seq<Reply>) {
    forall k :: 0 <= k < |replies| ==> replies[k].id == k + 1
  }

  /** An accepted output is the reply with the call's own number and arguments. */
  predicate Owns(replies: seq<Reply>, id: nat, args: seq<string>, accepted: Reply) {
    1 <= id <= |replies| && accepted == replies[id - 1] && accepted.id == id && accepted.args == args
  }

  lemma {:induction false} AcceptedAreOwn(p: DestinationPlan, c: Client, calls: seq<Call>, replies: seq<Reply>)
    requires Numbered(replies) && FromReplies(calls, replies)
    ensures var accepted := Accepted(p, c, calls);
      && |accepted| <= |calls|
      && forall k :: 0 <= k < |accepted| ==> Owns(replies, c.id + k + 1, calls[k].args, accepted[k])
    decreases |calls|
  {
    hide Allowed;
    if calls != [] {
      var (next, output) := CallOnce(p, c, calls[0]);
      if output.None? {
        BlockedClientAcceptsNothing(p, next, calls[1..]);
      } else {
        assert FromReplies(calls[1..], replies);
        AcceptedAreOwn(p, next, calls[1..], replies);
        var first := Reply(next.id, calls[0].args, output.value);
        var j :| 0 <= j < |replies| && replies[j] == first;
        assert Owns(replies, c.id + 1, calls[0].args, first);
        var rest := Accepted(p, next, calls[1..]);
        assert Accepted(p, c, calls) == [first] + rest;
        forall k | 0 <= k < |rest| + 1 ensures Owns(replies, c.id + k + 1, calls[k].args, ([first] + rest)[k]) {
          if k > 0 { assert Owns(replies, next.id + (k - 1) + 1, calls[1..][k - 1].args, rest[k - 1]); }
        }
      }
    }
  }

  lemma LoopNumbers(p: DestinationPlan, packets: seq<Packet>)
    requires ProperPackets(packets)
    ensures var b := RunLoop(p, packets);
      && Numbered(b.replies) && |b.replies| <= |b.started|
      && forall k :: 0 <= k < |b.replies| ==> b.started[k].id == k + 1 && b.replies[k].args == b.started[k].args
  {
    hide Allowed, Turns, Gone;
    TurnsAccounted(p, INITIAL_LOOP, packets);
  }

  /** End to end: if what the worker reads is what a broker loop replied, the n-th
      output it accepts is the output of the n-th command that broker launched,
      for the arguments of its own n-th call. */
  lemma AcceptedOutputsAreOwn(p: DestinationPlan, calls: seq<Call>, packets: seq<Packet>)
    requires ProperPackets(packets) && FromReplies(calls, RunLoop(p, packets).replies)
    ensures var accepted, b := Accepted(p, Client(0, false), calls), RunLoop(p, packets);
      && |accepted| <= |calls| && |accepted| <= |b.replies| <= |b.started|
      && forall k :: 0 <= k < |accepted| ==>
           accepted[k] == b.replies[k] && b.started[k].id == k + 1 && b.started[k].args == calls[k].args
  {
    hide Allowed, Accepted, FromReplies, RunLoop, Accounted;
    var b := RunLoop(p, packets);
    LoopNumbers(p, packets);
    AcceptedAreOwn(p, Client(0, false), calls, b.replies);
    var accepted := Accepted(p, Client(0, false), calls);
    forall k | 0 <= k < |accepted| ensures Owns(b.replies, k + 1, calls[k].args, accepted[k]) {
    }
    assert |accepted| > 0 ==> Owns(b.replies, |accepted|, calls[|accepted| - 1].args, accepted[|accepted| - 1]);
  }

  lemma {:induction false} AcceptedWereQuiet(p: DestinationPlan, c: Client, calls: seq<Call>)
    ensures var accepted := Accepted(p, c, calls);
      && |accepted| <= |calls|
      && forall k :: 0 <= k < |accepted| ==> Answers(calls[k], c.id + k + 1, accepted[k])
    decreases |calls|
  {
    hide Allowed;
    if calls != [] {
      var (next, output) := CallOnce(p, c, calls[0]);
      if output.None? {
        BlockedClientAcceptsNothing(p, next, calls[1..]);
      } else {
        AcceptedWereQuiet(p, next, calls[1..]);
        var rest := Accepted(p, next, calls[1..]);
        var first := Reply(next.id, calls[0].args, output.value);
        assert Accepted(p, c, calls) == [first] + rest;
        forall k | 0 <= k < |rest| + 1 ensures Answers(calls[k], c.id + k + 1, ([first] + rest)[k]) {
          if k > 0 { assert Answers(calls[1..][k - 1], next.id + (k - 1) + 1, rest[k - 1]); }
        }
      }
    }
  }

  /** The call was sent, and what came back is a quiet response of this version with
      its own number and arguments. */
  predicate Answers(call: Call, id: nat, accepted: Reply) {
    call.sent && call.response == Some(Response(1, id, true, call.args, accepted.output)) && accepted == Reply(id, call.args, accepted.output)
  }

  /** What a call reads when its reply arrives as it was sent. */
  function Answered(reply: Reply): Call {
    Call(reply.args, true, Some(Response(1, reply.id, true, reply.args, reply.output)))
  }

  lemma {:induction false} AcceptedOn(p: DestinationPlan, c: Client, replies: seq<Reply>, calls: seq<Call>)
    requires !c.blocked && |calls| == |replies|
    requires forall k :: 0 <= k < |replies| ==>
      replies[k].id == c.id + k + 1 && Allowed(p, replies[k].args) && calls[k] == Answered(replies[k])
    ensures Accepted(p, c, calls) == replies
    decreases |calls|
  {
    hide Allowed;
    if calls != [] {
      assert CallOnce(p, c, calls[0]) == (Client(c.id + 1, false), Some(replies[0].output));
      assert forall k :: 0 <= k < |replies[1..]| ==> replies[1..][k] == replies[k + 1] && calls[1..][k] == calls[k + 1];
      AcceptedOn(p, Client(c.id + 1, false), replies[1..], calls[1..]);
      assert [replies[0]] + replies[1..] == replies;
    }
  }

  /** Over an undisturbed channel a worker gets the output of every command it asks
      for, in order. */
  lemma WorkerGetsAll(p: DestinationPlan, packets: seq<Packet>, calls: seq<Call>)
    requires Orderly(p, packets, 0) && |calls| == |packets|
    requires var replies := RunLoop(p, packets).replies;
      forall k :: 0 <= k < |calls| && k < |replies| ==> calls[k] == Answered(replies[k])
    ensures var accepted := Accepted(p, Client(0, false), calls);
      |accepted| == |packets|
      && forall k :: 0 <= k < |packets| ==> accepted[k] == Reply(k + 1, packets[k].args, packets[k].launch.output)
  {
    hide Allowed, RunLoop, Accepted, Quiet;
    ServedAll(p, packets);
    var replies := RunLoop(p, packets).replies;
    AcceptedOn(p, Client(0, false), replies, calls);
  }
}
