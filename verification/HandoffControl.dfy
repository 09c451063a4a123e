/** The handoff as each party's own code: `HandoffScoped` in the guard, `Accept`,
    the polling loop and the recovery in the anchor, the gate in the stub. Between
    any two of its steps a party may find that the others, or a kill, got in first.
    Every execution is a run of the protocol, so its guarantees hold of the code. */
module HandoffControl {
  import opened Text
  import opened Handoff

  /** Unavailable: the call found its one chance already used. */
  datatype Outcome = Succeeded | Failed | Died | Unavailable

  /** What the others do between two steps of the caller. */
  type Pause = seq<Action>

  predicate StubAction(a: Action) {
    a.ReadGate? || a.GiveUp?
  }

  predicate AnchorAction(a: Action) {
    !FromGuard(a) && !StubAction(a) && !a.Exit? && !a.Noise?
  }

  predicate NotGuard(p: Pause) {
    forall a :: a in p ==> !FromGuard(a)
  }

  predicate NotAnchor(p: Pause) {
    forall a :: a in p ==> !AnchorAction(a)
  }

  lemma GuardLeavesAnchor(c: Setting, w: World, a: Action)
    requires FromGuard(a) || StubAction(a) || a.Noise?
    ensures Next(c, w, a).anchor == w.anchor && Next(c, w, a).held == w.held
  {
  }

  lemma ExitLeavesAnchor(c: Setting, w: World, id: Id)
    ensures var next := Next(c, w, Exit(id));
      (next.anchor == w.anchor && next.held == w.held) || !AnchorRuns(c, next)
  {
  }

  lemma OtherKeepsAnchor(c: Setting, w: World, a: Action)
    requires !AnchorAction(a)
    ensures Next(c, w, a).anchor == w.anchor || !AnchorRuns(c, Next(c, w, a))
    ensures AnchorRuns(c, Next(c, w, a)) ==> AnchorRuns(c, w) && Next(c, w, a).held == w.held
  {
    hide Next;
    NextOnlyExits(c, w, a);
    if a.Exit? { ExitLeavesAnchor(c, w, a.id); } else { GuardLeavesAnchor(c, w, a); }
  }

  lemma {:induction false} OthersKeepGuard(c: Setting, w: World, p: Pause)
    requires NotGuard(p)
    ensures Play(c, w, p).sender == w.sender
    decreases |p|
  {
    if p != [] {
      hide Next;
      assert p[0] in p && forall a :: a in p[1..] ==> a in p;
      OthersLeaveSender(c, w, p[0]);
      OthersKeepGuard(c, Next(c, w, p[0]), p[1..]);
    }
  }

  /** The others can only end the anchor, by killing it. */
  lemma {:induction false} OthersKeepAnchor(c: Setting, w: World, p: Pause)
    requires NotAnchor(p)
    ensures Play(c, w, p).anchor == w.anchor || !AnchorRuns(c, Play(c, w, p))
    ensures AnchorRuns(c, Play(c, w, p)) ==> AnchorRuns(c, w) && Play(c, w, p).held == w.held
    decreases |p|
  {
    if p != [] {
      hide Next;
      assert p[0] in p && forall a :: a in p[1..] ==> a in p;
      OtherKeepsAnchor(c, w, p[0]);
      OthersKeepAnchor(c, Next(c, w, p[0]), p[1..]);
    }
  }

  /** One turn of the anchor's polling loop. */
  datatype Poll = Poll(pause: Pause, emitted: bool)

  datatype Recovery = Recovery(
    bindingStill: bool, exits: seq<Pause>, opening: Pause, mutations: seq<Pause>, clean: bool, failed: bool, emitted: bool)

  // ---- each party's whole call, as a function of what the others do ----

  /** The others go on until there is a packet for the guard, or time is up. */
  function GuardPolled(c: Setting, w: World, polls: seq<Pause>): World
    decreases |polls|
  {
    if polls == [] || w.toSender != [] || c.guard !in w.alive then w
    else GuardPolled(c, Play(c, w, polls[0]), polls[1..])
  }

  function AnchorPolled(c: Setting, w: World, polls: seq<Pause>): World
    decreases |polls|
  {
    if polls == [] || w.toAnchor != [] || !AnchorRuns(c, w) then w
    else AnchorPolled(c, Play(c, w, polls[0]), polls[1..])
  }

  predicate CanSend(c: Setting, w: World) {
    AnchorRuns(c, w) && Acquirable(w, Triple(c.claimedWorker, c.guard, c.command))
  }

  predicate Acknowledged(c: Setting, w: World) {
    w.toSender != [] && w.toSender[0] == Echo(c.nonce, c.senderBinding)
  }

  predicate CanOwn(c: Setting, w: World, bindingStill: bool) {
    w.toAnchor != [] &&
    var m := w.toAnchor[0];
    m.Request? && m.binding == c.anchorBinding && bindingStill && m.worker == c.expectedWorker && m.guard == c.expectedGuard
    && Acquirable(w, Triple(m.worker, m.guard, m.command))
  }

  predicate IsConfirmed(c: Setting, w: World) {
    w.toAnchor != [] && w.toAnchor[0] == Echo(c.nonce, c.anchorBinding)
  }

  function GuardRun(c: Setting, w: World, starting: Pause, sending: Pause, polls: seq<Pause>, confirming: Pause): (World, Outcome) {
    if w.sender != Ready then (w, Unavailable)
    else
      var s1 := Play(c, w, starting);
      if c.guard !in s1.alive then (s1, Died)
      else if !CanSend(c, s1) then (Next(c, s1, FailSender), Failed)
      else
        var s2 := Play(c, Next(c, s1, Send), sending);
        if c.guard !in s2.alive then (s2, Died)
        else
          var s3 := GuardPolled(c, Next(c, s2, DropGate), polls);
          if c.guard !in s3.alive then (s3, Died)
          else if !Acknowledged(c, s3) then (Next(c, s3, if s3.toSender == [] then FailSender else ReadAck), Failed)
          else
            var s4 := Play(c, Next(c, s3, ReadAck), confirming);
            if c.guard !in s4.alive then (s4, Died)
            else if !AnchorRuns(c, s4) then (Next(c, s4, FailSender), Failed)
            else (Next(c, s4, Confirm), Succeeded)
  }

  function AnchorRun(c: Setting, w: World, first: seq<Pause>, bindingStill: bool, acking: Pause, second: seq<Pause>, releasing: Pause)
    : (World, Outcome)
  {
    if w.anchor != Waiting then (w, Unavailable)
    else
      var s1 := AnchorPolled(c, w, first);
      if !AnchorRuns(c, s1) then (s1, Died)
      else if !CanOwn(c, s1, bindingStill) then (AnchorExits(c, s1, Blocked, 1), Failed)
      else
        var s2 := Play(c, Next(c, s1, Accept(bindingStill)), acking);
        if !AnchorRuns(c, s2) then (s2, Died)
        else
          var s3 := AnchorPolled(c, Next(c, s2, Ack), second);
          if !AnchorRuns(c, s3) then (s3, Died)
          else if !IsConfirmed(c, s3) then (AnchorExits(c, s3, Blocked, 1), Failed)
          else
            var s4 := Play(c, Next(c, s3, ReadConfirmation), releasing);
            if !AnchorRuns(c, s4) then (s4, Died)
            else if s4.stub != Paused then (AnchorExits(c, s4, Blocked, 1), Failed)
            else (Next(c, s4, Release), Succeeded)
  }

  /** The three identities, one after the other. */
  function ExitsRun(c: Setting, w: World, exits: seq<Pause>, t: Triple, k: nat): (World, Outcome)
    requires |exits| == 3 && k <= 3
    decreases 3 - k
  {
    if k == 3 then (w, Succeeded)
    else
      var s := Play(c, w, exits[k]);
      if !AnchorRuns(c, s) then (s, Died)
      else if Watched(t, k) in s.alive then (Next(c, s, TimeOut), Failed)
      else ExitsRun(c, Next(c, s, ObserveExit), exits, t, k + 1)
  }

  function MutationsRun(c: Setting, w: World, mutations: seq<Pause>): World
    decreases |mutations|
  {
    if mutations == [] then w
    else
      var s := Play(c, w, mutations[0]);
      if !AnchorRuns(c, s) then s else MutationsRun(c, Next(c, s, Mutate), mutations[1..])
  }

  function RecoveryRun(c: Setting, w: World, t: Triple, r: Recovery): (World, Outcome)
    requires |r.exits| == 3
  {
    if !r.bindingStill then (Next(c, w, NoticeWorker(false)), Failed)
    else
      var (s1, outcome) := ExitsRun(c, Next(c, w, NoticeWorker(true)), r.exits, t, 0);
      if !outcome.Succeeded? then (s1, outcome)
      else
        var s2 := Play(c, s1, r.opening);
        if !AnchorRuns(c, s2) then (s2, Died)
        else
          var s3 := MutationsRun(c, Next(c, s2, OpenJournal), r.mutations);
          if !AnchorRuns(c, s3) then (s3, Died)
          else (Next(c, s3, Finish(r.clean, r.failed, r.emitted)), if r.failed then Failed else Succeeded)
  }

  function WatchRun(c: Setting, w: World, t: Triple, polls: seq<Poll>, r: Recovery): (World, Outcome)
    requires |r.exits| == 3
    decreases |polls|
  {
    if polls == [] then (if AnchorRuns(c, w) then Next(c, w, TimeOut) else w, Failed)
    else
      var s := Play(c, w, polls[0].pause);
      if !AnchorRuns(c, s) then (s, Died)
      else if t.worker !in s.alive then RecoveryRun(c, s, t, r)
      else if t.guard !in s.alive && t.command !in s.alive then
        (Next(c, s, NoticeQuiet(polls[0].emitted)), if polls[0].emitted then Succeeded else Failed)
      else WatchRun(c, s, t, polls[1..], r)
  }

  class Command {
    const c: Setting
    ghost const start: World
    ghost var trace: seq<Action>
    var w: World

    ghost predicate Valid()
      reads this
    {
      w == Play(c, start, trace) && Start(c, start) && Distinct(c)
    }

    ghost method Happened(a: Action)
      requires w == Next(c, Play(c, start, trace), a)
      modifies this`trace
      ensures trace == old(trace) + [a] && w == Play(c, start, trace)
    {
      hide Next;
      PlayAppend(c, start, trace, [a]);
      assert [a][1..] == [];
      trace := trace + [a];
    }

    method Meanwhile(p: Pause)
      requires Valid()
      modifies this`w, this`trace
      ensures Valid() && trace == old(trace) + p && w == Play(c, old(w), p)
    {
      hide Next, Start;
      PlayAppend(c, start, trace, p);
      w := Play(c, w, p);
      trace := trace + p;
    }

    // ---- the guard ----

    /** `finish(true)` */
    method Fail()
      requires Valid() && SenderRuns(c, w)
      modifies this`w, this`trace
      ensures Valid() && w == Next(c, old(w), FailSender) && w.sender == Errored && trace == old(trace) + [FailSender]
    {
      w := w.(sender := Errored, gate := w.gate - {SenderHolds}, alive := w.alive - {c.command}, stub := Over);
      Happened(FailSender);
    }

    method SendRequest() returns (sent: bool)
      requires Valid() && SenderRuns(c, w) && w.sender == Ready
      modifies this`w, this`trace
      ensures Valid() && old(trace) <= trace
      ensures w.sender == if sent then SentHoldingGate else Errored
      ensures sent <==> CanSend(c, old(w))
      ensures w == Next(c, old(w), if sent then Send else FailSender)
    {
      hide Play, Start;
      if !AnchorRuns(c, w) || !Acquirable(w, Triple(c.claimedWorker, c.guard, c.command)) {
        Fail();
        return false;
      }
      w := w.(sender := SentHoldingGate, gate := w.gate + {InTransit},
              toAnchor := w.toAnchor + [Request(c.nonce, c.senderBinding, c.claimedWorker, c.guard, c.command)]);
      Happened(Send);
      sent := true;
    }

    method CloseGate()
      requires Valid() && SenderRuns(c, w) && w.sender == SentHoldingGate
      modifies this`w, this`trace
      ensures Valid() && old(trace) <= trace && w.sender == Sent && w == Next(c, old(w), DropGate)
    {
      hide Play, Start;
      w := w.(sender := Sent, gate := w.gate - {SenderHolds});
      Happened(DropGate);
    }

    method ReceiveAck() returns (valid: bool)
      requires Valid() && SenderRuns(c, w) && w.sender == Sent
      modifies this`w, this`trace
      ensures Valid() && old(trace) <= trace
      ensures w.sender == if valid then Validated else Errored
      ensures valid <==> Acknowledged(c, old(w))
      ensures w == Next(c, old(w), if old(w).toSender == [] then FailSender else ReadAck)
    {
      hide Play, Start;
      if w.toSender == [] {
        Fail();
        return false;
      }
      if w.toSender[0] != Echo(c.nonce, c.senderBinding) {
        w := w.(sender := Errored, gate := w.gate - {SenderHolds}, alive := w.alive - {c.command}, stub := Over);
        Happened(ReadAck);
        return false;
      }
      w := w.(sender := Validated, ackRead := Some(w.toSender[0]), toSender := w.toSender[1..]);
      Happened(ReadAck);
      valid := true;
    }

    method SendConfirmation() returns (sent: bool)
      requires Valid() && SenderRuns(c, w) && w.sender == Validated
      modifies this`w, this`trace
      ensures Valid() && old(trace) <= trace
      ensures w.sender == if sent then Admitted else Errored
      ensures sent <==> AnchorRuns(c, old(w))
      ensures w == Next(c, old(w), if sent then Confirm else FailSender)
    {
      hide Play, Start;
      if !AnchorRuns(c, w) {
        Fail();
        return false;
      }
      w := w.(sender := Admitted, confirmed := true, toAnchor := w.toAnchor + [Echo(c.nonce, c.senderBinding)]);
      Happened(Confirm);
      sent := true;
    }

    /** Wait for the anchor's packet: poll until it is there or time is up. */
    method AwaitAck(polls: seq<Pause>)
      requires Valid() && forall k :: 0 <= k < |polls| ==> NotGuard(polls[k])
      modifies this`w, this`trace
      ensures Valid() && old(trace) <= trace && w.sender == old(w).sender && w == GuardPolled(c, old(w), polls)
    {
      hide Next, Play, Start, Distinct;
      var k := 0;
      while k < |polls| && w.toSender == [] && c.guard in w.alive
        invariant 0 <= k <= |polls| && Valid() && old(trace) <= trace && w.sender == old(w).sender
        invariant GuardPolled(c, old(w), polls) == GuardPolled(c, w, polls[k..])
      {
        assert polls[k..][0] == polls[k] && polls[k..][1..] == polls[k + 1..];
        OthersKeepGuard(c, w, polls[k]);
        Meanwhile(polls[k]);
        k := k + 1;
      }
    }

    /** `HandoffScoped`: an error means the command never runs, except that a call
        after the first changes nothing and says nothing. */
    method HandoffScoped(starting: Pause, sending: Pause, polls: seq<Pause>, confirming: Pause) returns (outcome: Outcome)
      requires Valid() && NotGuard(starting) && NotGuard(sending) && NotGuard(confirming)
      requires forall k :: 0 <= k < |polls| ==> NotGuard(polls[k])
      modifies this`w, this`trace
      ensures Valid() && old(trace) <= trace
      ensures (w, outcome) == GuardRun(c, old(w), starting, sending, polls, confirming)
      ensures outcome.Unavailable? <==> old(w).sender != Ready
      ensures outcome.Unavailable? ==> w == old(w)
      ensures outcome.Succeeded? ==> w.sender == Admitted
      ensures outcome.Failed? ==> w.sender == Errored && !w.released && w.stub != Executing
    {
      hide Next, Play, Start, Distinct;
      if w.sender != Ready {
        return Unavailable;
      }
      OthersKeepGuard(c, w, starting);
      Meanwhile(starting);
      if c.guard !in w.alive {
        return Died;
      }
      var ok := SendRequest();
      if !ok {
        NoExecution();
        return Failed;
      }
      OthersKeepGuard(c, w, sending);
      Meanwhile(sending);
      if c.guard !in w.alive {
        return Died;
      }
      CloseGate();
      AwaitAck(polls);
      if c.guard !in w.alive {
        return Died;
      }
      ok := ReceiveAck();
      if !ok {
        NoExecution();
        return Failed;
      }
      OthersKeepGuard(c, w, confirming);
      Meanwhile(confirming);
      if c.guard !in w.alive {
        return Died;
      }
      ok := SendConfirmation();
      if !ok {
        NoExecution();
        return Failed;
      }
      outcome := Succeeded;
    }

    lemma NoExecution()
      requires Valid() && w.sender == Errored
      ensures !w.released && w.stub != Executing
    {
      hide Next, Play, Start;
      ErrorMeansNoExecution(c, start, trace, []);
      assert Play(c, w, []) == w by { PlayNothing(c, w); }
    }

    // ---- the stub ----

    /** `commandAdmissionEntry`: exec only on the released byte. */
    method AwaitGate(pause: Pause) returns (executes: bool)
      requires Valid()
      modifies this`w, this`trace
      ensures Valid()
      ensures var arrived := Play(c, old(w), pause);
        && (executes <==> c.command in arrived.alive && arrived.stub == Paused && arrived.released)
        && (executes ==> w == Next(c, arrived, ReadGate))
        && (!executes ==> w.stub != Paused || c.command !in w.alive)
      ensures executes ==> Witnessed(c, w) && w.ackRead == Some(Echo(c.nonce, c.senderBinding)) && w.confirmed
    {
      hide Play, Start;
      Meanwhile(pause);
      if c.command !in w.alive || w.stub != Paused {
        return false;
      }
      if w.released {
        w := w.(stub := Executing);
        Happened(ReadGate);
        ExecutionNeedsHandoff(c, start, trace);
        return true;
      }
      w := w.(stub := Over, alive := w.alive - {c.command});
      Happened(GiveUp);
      executes := false;
    }

    // ---- the anchor ----

    method Exit(report: Report, code: int, ghost a: Action)
      requires Valid() && Next(c, w, a) == AnchorExits(c, w, report, code)
      modifies this`w, this`trace
      ensures Valid() && w == AnchorExits(c, old(w), report, code) && trace == old(trace) + [a]
    {
      w := AnchorGone(w).(report := Some(report), exitCode := Some(code), alive := w.alive - {c.anchor});
      Happened(a);
    }

    method OwnWitness(bindingStill: bool) returns (owned: bool)
      requires Valid() && AnchorRuns(c, w) && w.anchor == Waiting
      modifies this`w, this`trace
      ensures Valid() && old(trace) <= trace
      ensures if owned then w.anchor == Owned && w.held.Some? else c.anchor !in w.alive && w.report == Some(Blocked)
      ensures owned <==> CanOwn(c, old(w), bindingStill)
      ensures w == if owned then Next(c, old(w), Accept(bindingStill)) else AnchorExits(c, old(w), Blocked, 1)
    {
      hide Play, Start;
      if w.toAnchor == [] {
        Exit(Blocked, 1, FailAnchor);
        return false;
      }
      var m := w.toAnchor[0];
      if !m.Request? || m.binding != c.anchorBinding || !bindingStill || m.worker != c.expectedWorker
         || m.guard != c.expectedGuard || !Acquirable(w, Triple(m.worker, m.guard, m.command)) {
        Exit(Blocked, 1, Accept(bindingStill));
        return false;
      }
      w := w.(anchor := Owned, held := Some(Triple(m.worker, m.guard, m.command)), atAccept := Some(w.alive),
              toAnchor := w.toAnchor[1..], gate := w.gate - {InTransit} + {AnchorHolds});
      Happened(Accept(bindingStill));
      owned := true;
    }

    method Acknowledge()
      requires Valid() && AnchorRuns(c, w) && w.anchor == Owned
      modifies this`w, this`trace
      ensures Valid() && old(trace) <= trace && w.anchor == Acked && AnchorRuns(c, w) && w.held == old(w).held
      ensures w == Next(c, old(w), Ack)
    {
      hide Play, Start;
      w := w.(anchor := Acked, toSender := w.toSender + [Echo(c.nonce, c.anchorBinding)]);
      Happened(Ack);
    }

    method ReceiveConfirmation() returns (valid: bool)
      requires Valid() && AnchorRuns(c, w) && w.anchor == Acked
      modifies this`w, this`trace
      ensures Valid() && old(trace) <= trace
      ensures if valid then w.anchor == Confirmed && w.held == old(w).held else c.anchor !in w.alive && w.report == Some(Blocked)
      ensures valid <==> IsConfirmed(c, old(w))
      ensures w == if valid then Next(c, old(w), ReadConfirmation) else AnchorExits(c, old(w), Blocked, 1)
    {
      hide Play, Start;
      if w.toAnchor == [] {
        Exit(Blocked, 1, FailAnchor);
        return false;
      }
      if w.toAnchor[0] != Echo(c.nonce, c.anchorBinding) {
        Exit(Blocked, 1, ReadConfirmation);
        return false;
      }
      w := w.(anchor := Confirmed, confirmationRead := Some(w.toAnchor[0]), toAnchor := w.toAnchor[1..]);
      Happened(ReadConfirmation);
      valid := true;
    }

    method ReleaseGate() returns (released: bool)
      requires Valid() && AnchorRuns(c, w) && w.anchor == Confirmed
      modifies this`w, this`trace
      ensures Valid() && old(trace) <= trace
      ensures if released then w.anchor == Watching && AnchorRuns(c, w) && w.released && w.held == old(w).held
              else c.anchor !in w.alive && w.report == Some(Blocked)
      ensures released <==> old(w).stub == Paused
      ensures w == if released then Next(c, old(w), Release) else AnchorExits(c, old(w), Blocked, 1)
    {
      hide Play, Start;
      if w.stub != Paused {
        Exit(Blocked, 1, Release);
        return false;
      }
      w := w.(anchor := Watching, released := true, gate := w.gate - {AnchorHolds});
      Happened(Release);
      released := true;
    }

    /** Wait for the guard's packet: poll until it is there or time is up. */
    method AwaitPacket(polls: seq<Pause>)
      requires Valid() && AnchorRuns(c, w) && forall k :: 0 <= k < |polls| ==> NotAnchor(polls[k])
      modifies this`w, this`trace
      ensures Valid() && old(trace) <= trace
      ensures AnchorRuns(c, w) ==> w.anchor == old(w).anchor && w.held == old(w).held
      ensures w == AnchorPolled(c, old(w), polls)
    {
      hide Next, Play, Start, Distinct;
      var k := 0;
      while k < |polls| && w.toAnchor == [] && AnchorRuns(c, w)
        invariant 0 <= k <= |polls| && Valid() && old(trace) <= trace
        invariant AnchorRuns(c, w) ==> w.anchor == old(w).anchor && w.held == old(w).held
        invariant AnchorPolled(c, old(w), polls) == AnchorPolled(c, w, polls[k..])
      {
        assert polls[k..][0] == polls[k] && polls[k..][1..] == polls[k + 1..];
        OthersKeepAnchor(c, w, polls[k]);
        Meanwhile(polls[k]);
        k := k + 1;
      }
    }

    /** `Accept`: own the witness, acknowledge, wait for the confirmation, release.
        An anchor accepts once; a later call changes nothing. */
    method AcceptCommand(first: seq<Pause>, bindingStill: bool, acking: Pause, second: seq<Pause>, releasing: Pause)
      returns (outcome: Outcome)
      requires Valid() && AnchorRuns(c, w) && NotAnchor(acking) && NotAnchor(releasing)
      requires forall k :: 0 <= k < |first| ==> NotAnchor(first[k])
      requires forall k :: 0 <= k < |second| ==> NotAnchor(second[k])
      modifies this`w, this`trace
      ensures Valid() && old(trace) <= trace
      ensures (w, outcome) == AnchorRun(c, old(w), first, bindingStill, acking, second, releasing)
      ensures outcome.Unavailable? <==> old(w).anchor != Waiting
      ensures outcome.Unavailable? ==> w == old(w)
      ensures outcome.Succeeded? ==> w.anchor == Watching && AnchorRuns(c, w) && w.held.Some? && w.released
      ensures outcome.Failed? ==> c.anchor !in w.alive && w.report == Some(Blocked)
    {
      hide Next, Play, Start, Distinct;
      if w.anchor != Waiting {
        return Unavailable;
      }
      AwaitPacket(first);
      if !AnchorRuns(c, w) {
        return Died;
      }
      var ok := OwnWitness(bindingStill);
      if !ok {
        return Failed;
      }
      OthersKeepAnchor(c, w, acking);
      Meanwhile(acking);
      if !AnchorRuns(c, w) {
        return Died;
      }
      Acknowledge();
      AwaitPacket(second);
      if !AnchorRuns(c, w) {
        return Died;
      }
      ok := ReceiveConfirmation();
      if !ok {
        return Failed;
      }
      OthersKeepAnchor(c, w, releasing);
      Meanwhile(releasing);
      if !AnchorRuns(c, w) {
        return Died;
      }
      ok := ReleaseGate();
      outcome := if ok then Succeeded else Failed;
    }

    /** Guard and command are gone: report it, and exit either way. */
    method ReportQuiet(emitted: bool)
      requires Valid() && AnchorRuns(c, w) && w.anchor == Watching && w.held.Some? && w.held.value.worker in w.alive
      requires w.held.value.guard !in w.alive && w.held.value.command !in w.alive
      modifies this`w, this`trace
      ensures Valid() && old(trace) <= trace && c.anchor !in w.alive
      ensures w == Next(c, old(w), NoticeQuiet(emitted))
    {
      hide Play, Start;
      if emitted {
        Exit(Quiescent, 0, NoticeQuiet(true));
        return;
      }
      w := AnchorGone(w).(exitCode := Some(1), alive := w.alive - {c.anchor});
      Happened(NoticeQuiet(false));
    }

    method GiveUpWatching()
      requires Valid() && AnchorRuns(c, w) && w.anchor == Watching
      modifies this`w, this`trace
      ensures Valid() && old(trace) <= trace && w == Next(c, old(w), TimeOut)
    {
      hide Play, Start;
      Exit(Blocked, 1, TimeOut);
    }

    /** The loop of `registeredAnchorEntry`, each turn a worker poll and a poll of
        guard and command; the polls end with its deadline. */
    method Watch(polls: seq<Poll>, recovery: Recovery) returns (outcome: Outcome)
      requires Valid() && w.anchor == Watching && w.held.Some? && |recovery.exits| == 3
      requires forall k :: 0 <= k < |polls| ==> NotAnchor(polls[k].pause)
      requires forall k :: 0 <= k < 3 ==> NotAnchor(recovery.exits[k])
      requires NotAnchor(recovery.opening)
      requires forall k :: 0 <= k < |recovery.mutations| ==> NotAnchor(recovery.mutations[k])
      modifies this`w, this`trace
      ensures Valid() && old(trace) <= trace
      ensures (w, outcome) == WatchRun(c, old(w), old(w).held.value, polls, recovery)
      ensures !w.overlapped
      ensures outcome.Succeeded? && w.report == Some(Quiescent) ==> c.guard !in w.alive && c.command !in w.alive
    {
      hide Next, Play, Start, Distinct;
      ghost var t := w.held.value;
      var k := 0;
      while k < |polls|
        invariant 0 <= k <= |polls| && Valid() && old(trace) <= trace
        invariant w.anchor == Watching && w.held == Some(t)
        invariant WatchRun(c, old(w), t, polls, recovery) == WatchRun(c, w, t, polls[k..], recovery)
      {
        assert polls[k..][0] == polls[k] && polls[k..][1..] == polls[k + 1..];
        OthersKeepAnchor(c, w, polls[k].pause);
        Meanwhile(polls[k].pause);
        if !AnchorRuns(c, w) {
          Sound();
          return Died;
        }
        if w.held.value.worker !in w.alive {
          outcome := Recover(recovery);
          Sound();
          return;
        }
        if w.held.value.guard !in w.alive && w.held.value.command !in w.alive {
          ReportQuiet(polls[k].emitted);
          Sound();
          outcome := if polls[k].emitted then Succeeded else Failed;
          return;
        }
        k := k + 1;
      }
      if AnchorRuns(c, w) {
        GiveUpWatching();
      }
      Sound();
      outcome := Failed;
    }

    lemma Sound()
      requires Valid()
      ensures !w.overlapped && (w.report == Some(Quiescent) ==> c.guard !in w.alive && c.command !in w.alive)
    {
      hide Next, Play;
      StartInv(c, start);
      PlayInv(c, start, trace);
    }

    /** One pidfd of the witness, polled until it is readable or time is up. */
    method ObserveOne(k: nat) returns (exited: bool)
      requires Valid() && AnchorRuns(c, w) && w.anchor == Observing(k) && k < 3 && w.held.Some?
      modifies this`w, this`trace
      ensures Valid() && old(trace) <= trace
      ensures exited <==> Watched(old(w).held.value, k) !in old(w).alive
      ensures exited ==> w == old(w).(anchor := Observing(k + 1))
      ensures w == Next(c, old(w), if exited then ObserveExit else TimeOut)
    {
      hide Play, Start;
      if Watched(w.held.value, k) in w.alive {
        Exit(Blocked, 1, TimeOut);
        return false;
      }
      w := w.(anchor := Observing(k + 1));
      Happened(ObserveExit);
      exited := true;
    }

    method MutateOnce()
      requires Valid() && AnchorRuns(c, w) && w.anchor == Recovering && w.held.Some?
      modifies this`w, this`trace
      ensures Valid() && old(trace) <= trace && w.anchor == Recovering && w.held == old(w).held && w == Next(c, old(w), Mutate)
    {
      hide Play, Start;
      var t := w.held.value;
      w := w.(mutations := w.mutations + 1,
              overlapped := w.overlapped || t.worker in w.alive || t.guard in w.alive || t.command in w.alive);
      Happened(Mutate);
    }

    method StartObserving(bindingStill: bool) returns (going: bool)
      requires Valid() && AnchorRuns(c, w) && w.anchor == Watching && w.held.Some? && w.held.value.worker !in w.alive
      modifies this`w, this`trace
      ensures Valid() && old(trace) <= trace && going == bindingStill
      ensures going ==> w == old(w).(anchor := Observing(0))
      ensures w == Next(c, old(w), NoticeWorker(bindingStill))
    {
      hide Play, Start;
      if !bindingStill {
        Exit(Blocked, 1, NoticeWorker(false));
        return false;
      }
      w := w.(anchor := Observing(0));
      Happened(NoticeWorker(true));
      going := true;
    }

    method OpenTheJournal()
      requires Valid() && AnchorRuns(c, w) && w.anchor == Observing(3)
      modifies this`w, this`trace
      ensures Valid() && old(trace) <= trace && w == old(w).(anchor := Recovering) && w == Next(c, old(w), OpenJournal)
    {
      hide Play, Start;
      w := w.(anchor := Recovering);
      Happened(OpenJournal);
    }

    method EndRecovery(clean: bool, failed: bool, emitted: bool)
      requires Valid() && AnchorRuns(c, w) && w.anchor == Recovering
      modifies this`w, this`trace
      ensures Valid() && old(trace) <= trace && w == Next(c, old(w), Finish(clean, failed, emitted))
    {
      hide Play, Start;
      var report := if clean && !failed then Recovered else Blocked;
      var over := AnchorExits(c, w, report, if failed then 1 else 0);
      w := if emitted then over else over.(report := w.report);
      Happened(Finish(clean, failed, emitted));
    }

    /** `Recover`: three exits, one by one, before the journal is even opened. */
    method Recover(r: Recovery) returns (outcome: Outcome)
      requires Valid() && w.anchor == Watching && w.held.Some? && AnchorRuns(c, w) && w.held.value.worker !in w.alive
      requires |r.exits| == 3 && forall k :: 0 <= k < 3 ==> NotAnchor(r.exits[k])
      requires NotAnchor(r.opening) && forall k :: 0 <= k < |r.mutations| ==> NotAnchor(r.mutations[k])
      modifies this`w, this`trace
      ensures Valid() && old(trace) <= trace
      ensures (w, outcome) == RecoveryRun(c, old(w), old(w).held.value, r)
    {
      hide Next, Play, Start, Distinct;
      ghost var t := w.held.value;
      var going := StartObserving(r.bindingStill);
      if !going {
        return Failed;
      }
      var k := 0;
      while k < 3
        invariant 0 <= k <= 3 && Valid() && old(trace) <= trace
        invariant w.anchor == Observing(k) && w.held == Some(t)
        invariant ExitsRun(c, Next(c, old(w), NoticeWorker(true)), r.exits, t, 0) == ExitsRun(c, w, r.exits, t, k)
      {
        OthersKeepAnchor(c, w, r.exits[k]);
        Meanwhile(r.exits[k]);
        if !AnchorRuns(c, w) {
          return Died;
        }
        var exited := ObserveOne(k);
        if !exited {
          return Failed;
        }
        k := k + 1;
      }
      OthersKeepAnchor(c, w, r.opening);
      Meanwhile(r.opening);
      if !AnchorRuns(c, w) {
        return Died;
      }
      OpenTheJournal();
      ghost var began := w;
      k := 0;
      while k < |r.mutations|
        invariant 0 <= k <= |r.mutations| && Valid() && old(trace) <= trace
        invariant w.anchor == Recovering && w.held.Some?
        invariant MutationsRun(c, began, r.mutations) == MutationsRun(c, w, r.mutations[k..])
      {
        assert r.mutations[k..][0] == r.mutations[k] && r.mutations[k..][1..] == r.mutations[k + 1..];
        OthersKeepAnchor(c, w, r.mutations[k]);
        Meanwhile(r.mutations[k]);
        if !AnchorRuns(c, w) {
          return Died;
        }
        MutateOnce();
        k := k + 1;
      }
      if !AnchorRuns(c, w) {
        return Died;
      }
      EndRecovery(r.clean, r.failed, r.emitted);
      outcome := if r.failed then Failed else Succeeded;
    }
  }

  // ---- undisturbed, the calls reach their ends ----

  /** The others act, and leave the anchor running. */
  predicate Spares(c: Setting, p: Pause) {
    NotAnchor(p) && Exit(c.anchor) !in p
  }

  lemma {:induction false} SparedAnchorRuns(c: Setting, w: World, p: Pause)
    requires Spares(c, p) && AnchorRuns(c, w) && Distinct(c)
    ensures var s := Play(c, w, p);
      AnchorRuns(c, s) && s.anchor == w.anchor && s.held == w.held && s.mutations == w.mutations && s.report == w.report
    decreases |p|
  {
    hide Next;
    if p != [] {
      assert p[0] in p && forall a :: a in p[1..] ==> a in p;
      SparedStep(c, w, p[0]);
      SparedAnchorRuns(c, Next(c, w, p[0]), p[1..]);
    }
  }

  lemma SparedStep(c: Setting, w: World, a: Action)
    requires !AnchorAction(a) && a != Exit(c.anchor) && AnchorRuns(c, w) && Distinct(c)
    ensures var s := Next(c, w, a);
      AnchorRuns(c, s) && s.anchor == w.anchor && s.held == w.held && s.mutations == w.mutations && s.report == w.report
  {
    hide Acquirable, Stray;
  }

  lemma {:induction false} ExitTakes(c: Setting, w: World, p: Pause, id: Id)
    requires Exit(id) in p
    ensures id !in Play(c, w, p).alive
    decreases |p|
  {
    hide Next;
    if p[0] == Exit(id) {
      assert id !in Next(c, w, p[0]).alive by { ExitedNow(c, w, id); }
      ExitsAreFinal(c, Next(c, w, p[0]), p[1..]);
    } else {
      ExitTakes(c, Next(c, w, p[0]), p[1..], id);
    }
  }

  lemma ExitedNow(c: Setting, w: World, id: Id)
    ensures id !in Next(c, w, Exit(id)).alive
  {
  }

  /** An anchor that watches, as it does after a successful `Accept`. */
  predicate Watches(c: Setting, w: World, t: Triple) {
    AnchorRuns(c, w) && w.anchor == Watching && w.held == Some(t) && t.guard == c.guard && t.command == c.command
  }

  /** Guard and command exit while the worker lives: the session ends quiescent. */
  lemma QuietCompletes(c: Setting, w: World, t: Triple, p: Pause, polls: seq<Poll>, r: Recovery)
    requires Watches(c, w, t) && Distinct(c) && |r.exits| == 3
    requires Spares(c, p) && Exit(c.guard) in p && Exit(c.command) in p && t.worker in Play(c, w, p).alive
    ensures var (end, outcome) := WatchRun(c, w, t, [Poll(p, true)] + polls, r);
      outcome.Succeeded? && SessionQuiescent(c, end, false) && end.mutations == w.mutations
  {
    hide Play, Spares;
    SparedAnchorRuns(c, w, p);
    ExitTakes(c, w, p, c.guard);
    ExitTakes(c, w, p, c.command);
    var s := Play(c, w, p);
    assert Next(c, s, NoticeQuiet(true)) == AnchorExits(c, s, Quiescent, 0);
  }

  /** The three exit one by one, or have exited before, and the recovery is clean. */
  predicate AllExit(c: Setting, t: Triple, r: Recovery) {
    && |r.exits| == 3 && r.bindingStill && r.clean && !r.failed && r.emitted
    && (forall k :: 0 <= k < 3 ==> Spares(c, r.exits[k]) && (k > 0 ==> Exit(Watched(t, k)) in r.exits[k]))
    && Spares(c, r.opening) && forall k :: 0 <= k < |r.mutations| ==> Spares(c, r.mutations[k])
  }

  lemma {:induction false} ExitsComplete(c: Setting, w: World, t: Triple, r: Recovery, k: nat)
    requires AllExit(c, t, r) && Distinct(c) && k <= 3
    requires AnchorRuns(c, w) && w.anchor == Observing(k) && w.held == Some(t) && (k == 0 ==> t.worker !in w.alive)
    ensures var (end, outcome) := ExitsRun(c, w, r.exits, t, k);
      outcome.Succeeded? && AnchorRuns(c, end) && end.anchor == Observing(3) && end.held == w.held
      && end.mutations == w.mutations && end.alive <= w.alive && (k <= 1 ==> t.guard !in end.alive)
    decreases 3 - k
  {
    hide Play, Spares;
    if k < 3 {
      var s := Play(c, w, r.exits[k]);
      SparedAnchorRuns(c, w, r.exits[k]);
      ExitsAreFinal(c, w, r.exits[k]);
      if k > 0 { ExitTakes(c, w, r.exits[k], Watched(t, k)); }
      assert Next(c, s, ObserveExit) == s.(anchor := Observing(k + 1));
      ExitsComplete(c, s.(anchor := Observing(k + 1)), t, r, k + 1);
    }
  }

  lemma {:induction false} MutationsComplete(c: Setting, w: World, mutations: seq<Pause>)
    requires AnchorRuns(c, w) && w.anchor == Recovering && w.held.Some? && Distinct(c)
    requires forall k :: 0 <= k < |mutations| ==> Spares(c, mutations[k])
    ensures var end := MutationsRun(c, w, mutations);
      AnchorRuns(c, end) && end.anchor == Recovering && end.mutations == w.mutations + |mutations| && end.alive <= w.alive
    decreases |mutations|
  {
    hide Play, Spares;
    if mutations != [] {
      var s := Play(c, w, mutations[0]);
      SparedAnchorRuns(c, w, mutations[0]);
      ExitsAreFinal(c, w, mutations[0]);
      assert Next(c, s, Mutate).mutations == s.mutations + 1 && Next(c, s, Mutate).alive == s.alive;
      assert Next(c, s, Mutate).anchor == s.anchor && Next(c, s, Mutate).held == s.held;
      assert forall k :: 0 <= k < |mutations[1..]| ==> mutations[1..][k] == mutations[k + 1];
      MutationsComplete(c, Next(c, s, Mutate), mutations[1..]);
    }
  }

  /** The worker is lost, guard and command follow: every mutation of the recovery
      is made, and it is reported. */
  lemma RecoveryCompletes(c: Setting, w: World, t: Triple, p: Pause, emitted: bool, polls: seq<Poll>, r: Recovery)
    requires Watches(c, w, t) && Distinct(c) && Spares(c, p) && Exit(t.worker) in p && AllExit(c, t, r)
    ensures var (end, outcome) := WatchRun(c, w, t, [Poll(p, emitted)] + polls, r);
      outcome.Succeeded? && SessionQuiescent(c, end, true) && end.report == Some(Recovered)
      && end.mutations == w.mutations + |r.mutations|
  {
    hide Play, Spares, ExitsRun, MutationsRun;
    SparedAnchorRuns(c, w, p);
    ExitTakes(c, w, p, t.worker);
    var s := Play(c, w, p);
    var observing := s.(anchor := Observing(0));
    assert Next(c, s, NoticeWorker(true)) == observing;
    ExitsComplete(c, observing, t, r, 0);
    var s1 := ExitsRun(c, observing, r.exits, t, 0).0;
    var s2 := Play(c, s1, r.opening);
    SparedAnchorRuns(c, s1, r.opening);
    ExitsAreFinal(c, s1, r.opening);
    var s3 := s2.(anchor := Recovering);
    assert Next(c, s2, OpenJournal) == s3;
    MutationsComplete(c, s3, r.mutations);
    var s4 := MutationsRun(c, s3, r.mutations);
    assert Next(c, s4, Finish(true, false, true)) == AnchorExits(c, s4, Recovered, 0);
  }

  /** With matching roles and bindings both parties' calls succeed against each
      other, and the command is released to run. */
  lemma BothSucceed(c: Setting, start: World, later: seq<Pause>)
    requires Compatible(c, start)
    ensures GuardRun(c, start, [], [Accept(true), Ack], later, []).1 == Succeeded
    ensures var (end, outcome) := AnchorRun(c, start, [[Send, DropGate]], true, [], [[ReadAck, Confirm]], []);
      && outcome == Succeeded && end.released && end.stub == Paused && end.gate == {}
      && Watches(c, end, Triple(c.expectedWorker, c.guard, c.command)) && end.mutations == 0
      && Next(c, end, ReadGate).stub == Executing
  {
    GuardSucceeds(c, start, later);
    AnchorSucceeds(c, start);
  }

  lemma GuardSucceeds(c: Setting, start: World, later: seq<Pause>)
    requires Compatible(c, start)
    ensures GuardRun(c, start, [], [Accept(true), Ack], later, []).1 == Succeeded
  {
    var s1 := Play(c, start, []);
    assert s1 == start;
    var sent := Next(c, start, Send);
    assert [Accept(true), Ack][1..] == [Ack] && [Ack][1..] == [];
    var s2 := Next(c, Next(c, sent, Accept(true)), Ack);
    assert Play(c, sent, [Accept(true), Ack]) == s2 by { PlayNothing(c, s2); }
    var s3 := Next(c, s2, DropGate);
    assert s3.toSender == [Echo(c.nonce, c.anchorBinding)];
    assert GuardPolled(c, s3, later) == s3;
    var s4 := Next(c, s3, ReadAck);
    assert Play(c, s4, []) == s4;
    assert AnchorRuns(c, s4);
  }

  lemma AnchorSucceeds(c: Setting, start: World)
    requires Compatible(c, start)
    ensures var (end, outcome) := AnchorRun(c, start, [[Send, DropGate]], true, [], [[ReadAck, Confirm]], []);
      && outcome == Succeeded && end.released && end.stub == Paused && end.gate == {}
      && Watches(c, end, Triple(c.expectedWorker, c.guard, c.command)) && end.mutations == 0
      && Next(c, end, ReadGate).stub == Executing
  {
    hide Next, Compatible, AnchorPolled, CanOwn, IsConfirmed;
    var s1 := Next(c, Next(c, start, Send), DropGate);
    RequestArrives(c, start);
    assert AnchorPolled(c, start, [[Send, DropGate]]) == s1 by { PolledTwice(c, start, Send, DropGate); }
    var s2 := Next(c, s1, Accept(true));
    PlayNothing(c, s2);
    AcknowledgedState(c, start);
    var acked := Next(c, s2, Ack);
    assert acked == AfterAck(c, start);
    ConfirmationArrives(c, acked);
    var s3 := Next(c, Next(c, acked, ReadAck), Confirm);
    assert AnchorPolled(c, acked, [[ReadAck, Confirm]]) == s3 by { PolledTwice(c, acked, ReadAck, Confirm); }
    var s4 := Next(c, s3, ReadConfirmation);
    PlayNothing(c, s4);
    ReleasedState(c, s4);
  }

  lemma PolledTwice(c: Setting, w: World, a: Action, b: Action)
    requires w.toAnchor == [] && AnchorRuns(c, w)
    ensures AnchorPolled(c, w, [[a, b]]) == Next(c, Next(c, w, a), b)
  {
    hide Next;
    assert [a, b][1..] == [b] && [b][1..] == [] && [[a, b]][1..] == [];
    PlayNothing(c, Next(c, Next(c, w, a), b));
    assert Play(c, Next(c, w, a), [b]) == Next(c, Next(c, w, a), b);
  }

  lemma RequestArrives(c: Setting, start: World)
    requires Compatible(c, start)
    ensures var s1 := Next(c, Next(c, start, Send), DropGate);
      && start.anchor == Waiting && start.toAnchor == [] && AnchorRuns(c, start)
      && AnchorRuns(c, s1) && CanOwn(c, s1, true) && AnchorRuns(c, Next(c, s1, Accept(true)))
      && {c.guard, c.command, c.anchor} <= start.alive && c.senderBinding == c.anchorBinding
  {
  }

  lemma ConfirmationArrives(c: Setting, w: World)
    requires w.sender == Sent && w.anchor == Acked && w.stub == Paused && w.toAnchor == [] && w.gate == {AnchorHolds}
    requires w.toSender == [Echo(c.nonce, c.anchorBinding)]
    requires {c.guard, c.command, c.anchor} <= w.alive && c.senderBinding == c.anchorBinding
    ensures var s3 := Next(c, Next(c, w, ReadAck), Confirm);
      var s4 := Next(c, s3, ReadConfirmation);
      && AnchorRuns(c, s3) && IsConfirmed(c, s3)
      && s4.anchor == Confirmed && s4.stub == Paused && s4.gate == {AnchorHolds} && s4.alive == w.alive
      && s4.held == w.held && s4.mutations == w.mutations && AnchorRuns(c, s4)
  {
    ConfirmedState(c, w);
  }
}
