/** command_handoff_linux.go, command_admission_linux.go, command_witness_linux.go
    and registered_command_linux.go: one command's life as a protocol between the
    guard that starts it paused, the anchor that may release it, and the paused
    stub itself. Any party may die, and any wait may be cancelled, at any point. */
module Handoff {
  import opened Text

  type Id = nat

  /** Packets on the guard-anchor channel. The request also carries the only
      write end of the stub's gate. */
  datatype Message =
    | Request(nonce: nat, binding: nat, worker: Id, guard: Id, command: Id)
    | Echo(nonce: nat, binding: nat)
    | Garbled

  datatype Sender = Ready | SentHoldingGate | Sent | Validated | Admitted | Errored

  datatype Anchor =
    | Waiting
    | Owned          // the witness is held, nothing acknowledged yet
    | Acked
    | Confirmed
    | Watching       // released, polling the witness
    | Observing(exits: nat)
    | Recovering     // the journal is open
    | Ended

  datatype Stub = Paused | Executing | Over

  datatype Holder = SenderHolds | InTransit | AnchorHolds

  datatype Report = Quiescent | Recovered | Blocked

  datatype Triple = Triple(worker: Id, guard: Id, command: Id)

  /** Fixed by the launcher: the real processes, whom each side expects, and
      each side's view of the state and plan. */
  datatype Setting = Setting(
    guard: Id,
    command: Id,
    anchor: Id,
    claimedWorker: Id,
    expectedWorker: Id,
    expectedGuard: Id,
    senderBinding: nat,
    anchorBinding: nat,
    nonce: nat)

  predicate Distinct(c: Setting) {
    && c.guard != c.command && c.guard != c.anchor && c.command != c.anchor
    && c.anchor != c.expectedWorker
  }

  datatype World = World(
    alive: set<Id>,
    sender: Sender,
    anchor: Anchor,
    stub: Stub,
    toAnchor: seq<Message>,
    toSender: seq<Message>,
    held: Option<Triple>,
    gate: set<Holder>,
    released: bool,           // the one byte is on the gate
    confirmed: bool,          // the guard's confirmation was sent
    atAccept: Option<set<Id>>,            // who was alive when the anchor took its witness
    ackRead: Option<Message>,             // the packet the guard went on after
    confirmationRead: Option<Message>,    // the packet the anchor went on after
    report: Option<Report>,
    exitCode: Option<int>,
    mutations: nat,
    overlapped: bool)         // a mutation happened while a witnessed process lived

  datatype Action =
    | Send | DropGate | ReadAck | Confirm | FailSender
    | Accept(bindingStill: bool) | Ack | ReadConfirmation | Release | FailAnchor
    | ReadGate | GiveUp
    | NoticeWorker(bindingStill: bool) | ObserveExit | OpenJournal | Mutate | Finish(clean: bool, failed: bool, emitted: bool)
    | NoticeQuiet(emitted: bool) | TimeOut
    | Exit(id: Id)
    | Noise(toAnchor: bool, m: Message)

  /** Any packet without descriptors that does not guess the nonce of this handoff:
      garbled, or an echo of another one. */
  predicate Stray(c: Setting, m: Message) {
    m.Garbled? || (m.Echo? && m.nonce != c.nonce)
  }

  /** `AcquireScopedCommandWitness`: three distinct identities, all live. */
  predicate Acquirable(w: World, t: Triple) {
    && t.worker != t.guard && t.worker != t.command && t.guard != t.command
    && t.worker in w.alive && t.guard in w.alive && t.command in w.alive
  }

  /** The anchor returns an error from Accept: it drops the witness, every packet
      still queued for it, and with them the gate. */
  function AnchorGone(w: World): World {
    w.(anchor := Ended, held := None, toAnchor := [], gate := w.gate - {AnchorHolds, InTransit})
  }

  function AnchorExits(c: Setting, w: World, report: Report, code: int): World {
    AnchorGone(w).(report := Some(report), exitCode := Some(code), alive := w.alive - {c.anchor})
  }

  /** `finish(true)`: the guard kills and reaps its own command. */
  function SenderFails(c: Setting, w: World): World {
    w.(sender := Errored, gate := w.gate - {SenderHolds}, alive := w.alive - {c.command}, stub := Over)
  }

  predicate SenderRuns(c: Setting, w: World) {
    c.guard in w.alive && w.sender != Errored && w.sender != Admitted
  }

  predicate AnchorRuns(c: Setting, w: World) {
    c.anchor in w.alive && w.anchor != Ended
  }

  function Watched(t: Triple, k: nat): Id
    requires k < 3
  {
    if k == 0 then t.worker else if k == 1 then t.guard else t.command
  }

  /** One step of one party; an action that is not enabled changes nothing. */
  function Next(c: Setting, w: World, a: Action): World {
    match a
    // the guard: HandoffScoped
    case Send =>
      if SenderRuns(c, w) && w.sender == Ready && AnchorRuns(c, w)
         && Acquirable(w, Triple(c.claimedWorker, c.guard, c.command))
      then w.(sender := SentHoldingGate, gate := w.gate + {InTransit},
              toAnchor := w.toAnchor + [Request(c.nonce, c.senderBinding, c.claimedWorker, c.guard, c.command)])
      else w
    case DropGate =>
      if SenderRuns(c, w) && w.sender == SentHoldingGate then w.(sender := Sent, gate := w.gate - {SenderHolds}) else w
    case ReadAck =>
      if SenderRuns(c, w) && w.sender == Sent && w.toSender != [] then
        if w.toSender[0] == Echo(c.nonce, c.senderBinding) then w.(sender := Validated, ackRead := Some(w.toSender[0]), toSender := w.toSender[1..])
        else SenderFails(c, w)
      else w
    case Confirm =>
      if SenderRuns(c, w) && w.sender == Validated && AnchorRuns(c, w)
      then w.(sender := Admitted, confirmed := true, toAnchor := w.toAnchor + [Echo(c.nonce, c.senderBinding)])
      else w
    case FailSender => if SenderRuns(c, w) then SenderFails(c, w) else w

    // the anchor: Accept
    case Accept(bindingStill) =>
      if AnchorRuns(c, w) && w.anchor == Waiting && w.toAnchor != [] then
        var m := w.toAnchor[0];
        if m.Request? && m.binding == c.anchorBinding && bindingStill
           && m.worker == c.expectedWorker && m.guard == c.expectedGuard
           && Acquirable(w, Triple(m.worker, m.guard, m.command))
        then w.(anchor := Owned, held := Some(Triple(m.worker, m.guard, m.command)), atAccept := Some(w.alive),
                toAnchor := w.toAnchor[1..], gate := w.gate - {InTransit} + {AnchorHolds})
        else AnchorExits(c, w, Blocked, 1)
      else w
    case Ack =>
      if AnchorRuns(c, w) && w.anchor == Owned
      then w.(anchor := Acked, toSender := w.toSender + [Echo(c.nonce, c.anchorBinding)])
      else w
    case ReadConfirmation =>
      if AnchorRuns(c, w) && w.anchor == Acked && w.toAnchor != [] then
        if w.toAnchor[0] == Echo(c.nonce, c.anchorBinding) then w.(anchor := Confirmed, confirmationRead := Some(w.toAnchor[0]), toAnchor := w.toAnchor[1..])
        else AnchorExits(c, w, Blocked, 1)
      else w
    case Release =>
      if AnchorRuns(c, w) && w.anchor == Confirmed then
        if w.stub == Paused then w.(anchor := Watching, released := true, gate := w.gate - {AnchorHolds})
        else AnchorExits(c, w, Blocked, 1)
      else w
    case FailAnchor =>
      if AnchorRuns(c, w) && w.anchor in {Waiting, Owned, Acked, Confirmed} then AnchorExits(c, w, Blocked, 1) else w

    // the stub: commandAdmissionEntry
    case ReadGate =>
      if c.command in w.alive && w.stub == Paused then
        if w.released then w.(stub := Executing)
        else if w.gate == {} then w.(stub := Over, alive := w.alive - {c.command})
        else w
      else w
    case GiveUp =>
      if c.command in w.alive && w.stub == Paused then w.(stub := Over, alive := w.alive - {c.command}) else w

    // the anchor after release: registeredAnchorEntry and Recover
    case NoticeWorker(bindingStill) =>
      if AnchorRuns(c, w) && w.anchor == Watching && w.held.Some? && w.held.value.worker !in w.alive then
        if bindingStill then w.(anchor := Observing(0)) else AnchorExits(c, w, Blocked, 1)
      else w
    case ObserveExit =>
      if AnchorRuns(c, w) && w.anchor.Observing? && w.anchor.exits < 3 && w.held.Some?
         && Watched(w.held.value, w.anchor.exits) !in w.alive
      then w.(anchor := Observing(w.anchor.exits + 1)) else w
    case OpenJournal =>
      if AnchorRuns(c, w) && w.anchor == Observing(3) then w.(anchor := Recovering) else w
    case Mutate =>
      if AnchorRuns(c, w) && w.anchor == Recovering && w.held.Some? then
        var t := w.held.value;
        w.(mutations := w.mutations + 1,
           overlapped := w.overlapped || t.worker in w.alive || t.guard in w.alive || t.command in w.alive)
      else w
    case Finish(clean, failed, emitted) =>
      if AnchorRuns(c, w) && w.anchor == Recovering then
        var over := AnchorExits(c, w, if clean && !failed then Recovered else Blocked, if failed then 1 else 0);
        if emitted then over else over.(report := w.report)
      else w
    case NoticeQuiet(emitted) =>
      if AnchorRuns(c, w) && w.anchor == Watching && w.held.Some?
         && w.held.value.guard !in w.alive && w.held.value.command !in w.alive
      then
        if emitted then AnchorExits(c, w, Quiescent, 0)
        else if w.held.value.worker !in w.alive then w
        else AnchorGone(w).(exitCode := Some(1), alive := w.alive - {c.anchor})
      else w
    case TimeOut =>
      if AnchorRuns(c, w) && (w.anchor == Watching || w.anchor.Observing?) then AnchorExits(c, w, Blocked, 1) else w

    // any process may exit or be killed; exits are final
    case Exit(id) =>
      var dead := w.(alive := w.alive - {id});
      if id == c.anchor then AnchorGone(dead)
      else if id == c.guard then dead.(gate := w.gate - {SenderHolds})
      else if id == c.command then dead.(stub := Over)
      else dead

    // strays on the channel, before or between the packets of the handoff
    case Noise(toAnchor, m) =>
      if !Stray(c, m) then w
      else if toAnchor then (if AnchorRuns(c, w) then w.(toAnchor := w.toAnchor + [m]) else w)
      else w.(toSender := w.toSender + [m])
  }

  function Play(c: Setting, w: World, actions: seq<Action>): World
    decreases |actions|
  {
    if actions == [] then w else Play(c, Next(c, w, actions[0]), actions[1..])
  }

  /** The stub is paused, the guard holds the only write end of its gate. */
  predicate Start(c: Setting, w: World) {
    && w.sender == Ready && w.anchor == Waiting && w.stub == Paused
    && w.toAnchor == [] && w.toSender == [] && w.held == None && w.gate == {SenderHolds}
    && !w.released && !w.confirmed && w.atAccept == None && w.ackRead == None && w.confirmationRead == None
    && w.report == None && w.exitCode == None && w.mutations == 0 && !w.overlapped
    && {c.guard, c.command, c.anchor} <= w.alive
  }

  // ---- the invariant ----

  predicate AnchorOwns(a: Anchor) {
    !a.Waiting? && !a.Ended?
  }

  predicate AfterRelease(a: Anchor) {
    a.Watching? || a.Recovering? || a.Observing?
  }

  /** What the anchor's witness proved: three distinct processes in the expected
      roles, alive together, and one binding on both sides. */
  predicate Witnessed(c: Setting, w: World) {
    && w.atAccept.Some? && {c.expectedWorker, c.guard, c.command} <= w.atAccept.value
    && c.expectedWorker == c.claimedWorker && c.expectedGuard == c.guard
    && c.senderBinding == c.anchorBinding
    && c.expectedWorker != c.guard && c.expectedWorker != c.command
  }

  predicate Inv(c: Setting, w: World) {
    // who may have written what
    && (forall k :: 0 <= k < |w.toAnchor| ==>
          Stray(c, w.toAnchor[k])
          || (w.toAnchor[k] == Request(c.nonce, c.senderBinding, c.claimedWorker, c.guard, c.command) && w.sender != Ready)
          || (w.toAnchor[k].Echo? && w.confirmed))
    && (forall k :: 0 <= k < |w.toSender| ==>
          Stray(c, w.toSender[k]) || (w.toSender[k] == Echo(c.nonce, c.anchorBinding) && Witnessed(c, w)))
    && (w.sender == Ready ==> w.anchor == Waiting || w.anchor == Ended)
    && (w.sender == Validated || w.sender == Admitted ==> w.ackRead == Some(Echo(c.nonce, c.senderBinding)) && Witnessed(c, w))
    && (w.confirmed <==> w.sender == Admitted)
    // the witness
    && (AnchorOwns(w.anchor) <==> w.held.Some?)
    && (w.held.Some? ==> w.held.value == Triple(c.expectedWorker, c.expectedGuard, c.command) && Witnessed(c, w))
    // release
    && (w.anchor == Confirmed || w.released ==> w.confirmed && w.confirmationRead == Some(Echo(c.nonce, c.anchorBinding)))
    && (w.released ==> Witnessed(c, w))
    && (AfterRelease(w.anchor) ==> w.released)
    && (w.stub == Executing ==> w.released)
    // single writer
    && (SenderHolds in w.gate ==> w.sender in {Ready, SentHoldingGate})
    && (InTransit in w.gate ==> AnchorHolds !in w.gate && w.anchor == Waiting)
    && (AnchorHolds in w.gate ==> w.anchor in {Owned, Acked, Confirmed})
    // exits
    && (w.stub != Over ==> c.command in w.alive)
    && (w.anchor.Observing? ==>
          && w.anchor.exits <= 3
          && (w.anchor.exits > 0 ==> c.expectedWorker !in w.alive)
          && (w.anchor.exits > 1 ==> c.guard !in w.alive)
          && (w.anchor.exits > 2 ==> c.command !in w.alive))
    && (w.anchor == Recovering ==> c.expectedWorker !in w.alive && c.guard !in w.alive && c.command !in w.alive)
    && !w.overlapped
    && (w.mutations > 0 ==> c.expectedWorker !in w.alive && c.guard !in w.alive && c.command !in w.alive)
    // reports
    && (w.report.Some? ==> c.anchor !in w.alive)
    && (w.report == Some(Quiescent) ==> c.guard !in w.alive && c.command !in w.alive && w.exitCode == Some(0))
    && (w.report == Some(Recovered) ==>
          c.expectedWorker !in w.alive && c.guard !in w.alive && c.command !in w.alive)
  }

  lemma StartInv(c: Setting, w: World)
    requires Start(c, w)
    ensures Inv(c, w)
  {
  }

  lemma SenderInv(c: Setting, w: World, a: Action)
    requires Inv(c, w) && Distinct(c)
    requires a.Send? || a.DropGate? || a.ReadAck? || a.Confirm? || a.FailSender?
    ensures Inv(c, Next(c, w, a))
  {
  }

  lemma AcceptInv(c: Setting, w: World, bindingStill: bool)
    requires Inv(c, w) && Distinct(c)
    ensures Inv(c, Next(c, w, Accept(bindingStill)))
  {
  }

  lemma AckInv(c: Setting, w: World, a: Action)
    requires Inv(c, w) && Distinct(c) && (a.Ack? || a.ReadConfirmation?)
    ensures Inv(c, Next(c, w, a))
  {
  }

  lemma ReleaseInv(c: Setting, w: World, a: Action)
    requires Inv(c, w) && Distinct(c) && (a.Release? || a.FailAnchor?)
    ensures Inv(c, Next(c, w, a))
  {
  }

  lemma ObservingInv(c: Setting, w: World, a: Action)
    requires Inv(c, w) && Distinct(c) && (a.NoticeWorker? || a.ObserveExit? || a.OpenJournal? || a.Mutate?)
    ensures Inv(c, Next(c, w, a))
  {
  }

  lemma EndingInv(c: Setting, w: World, a: Action)
    requires Inv(c, w) && Distinct(c) && (a.Finish? || a.NoticeQuiet? || a.TimeOut?)
    ensures Inv(c, Next(c, w, a))
  {
  }

  lemma StubInv(c: Setting, w: World, a: Action)
    requires Inv(c, w) && Distinct(c)
    requires a.ReadGate? || a.GiveUp?
    ensures Inv(c, Next(c, w, a))
  {
  }

  lemma AnchorExitInv(c: Setting, w: World)
    requires Inv(c, w) && Distinct(c)
    ensures Inv(c, Next(c, w, Exit(c.anchor)))
  {
  }

  lemma GuardExitInv(c: Setting, w: World)
    requires Inv(c, w) && Distinct(c)
    ensures Inv(c, Next(c, w, Exit(c.guard)))
  {
  }

  lemma CommandExitInv(c: Setting, w: World)
    requires Inv(c, w) && Distinct(c)
    ensures Inv(c, Next(c, w, Exit(c.command)))
  {
  }

  lemma OtherExitInv(c: Setting, w: World, id: Id)
    requires Inv(c, w) && id !in {c.anchor, c.guard, c.command}
    ensures Inv(c, Next(c, w, Exit(id)))
  {
  }

  lemma NoiseInv(c: Setting, w: World, toAnchor: bool, m: Message)
    requires Inv(c, w)
    ensures Inv(c, Next(c, w, Noise(toAnchor, m)))
  {
  }

  lemma NextInv(c: Setting, w: World, a: Action)
    requires Inv(c, w) && Distinct(c)
    ensures Inv(c, Next(c, w, a))
  {
    hide Next, Inv;
    match a
    case Send => SenderInv(c, w, a);
    case DropGate => SenderInv(c, w, a);
    case ReadAck => SenderInv(c, w, a);
    case Confirm => SenderInv(c, w, a);
    case FailSender => SenderInv(c, w, a);
    case Accept(bindingStill) => AcceptInv(c, w, bindingStill);
    case Ack => AckInv(c, w, a);
    case ReadConfirmation => AckInv(c, w, a);
    case Release => ReleaseInv(c, w, a);
    case FailAnchor => ReleaseInv(c, w, a);
    case ReadGate => StubInv(c, w, a);
    case GiveUp => StubInv(c, w, a);
    case NoticeWorker(_) => ObservingInv(c, w, a);
    case ObserveExit => ObservingInv(c, w, a);
    case OpenJournal => ObservingInv(c, w, a);
    case Mutate => ObservingInv(c, w, a);
    case Finish(_, _, _) => EndingInv(c, w, a);
    case NoticeQuiet(_) => EndingInv(c, w, a);
    case TimeOut => EndingInv(c, w, a);
    case Exit(id) =>
      if id == c.anchor { AnchorExitInv(c, w); }
      else if id == c.guard { GuardExitInv(c, w); }
      else if id == c.command { CommandExitInv(c, w); }
      else { OtherExitInv(c, w, id); }
    case Noise(toAnchor, m) => NoiseInv(c, w, toAnchor, m);
  }

  lemma {:induction false} PlayInv(c: Setting, w: World, actions: seq<Action>)
    requires Inv(c, w) && Distinct(c)
    ensures Inv(c, Play(c, w, actions))
    decreases |actions|
  {
    hide Next, Inv;
    if actions != [] {
      NextInv(c, w, actions[0]);
      PlayInv(c, Next(c, w, actions[0]), actions[1..]);
    }
  }

  // ---- the guarantees, over every interleaving ----

  /** The command's effects require the whole handshake, whatever else is on the
      channel: the anchor took a witness of three distinct processes in the
      expected roles that were all alive at that moment, both sides meant the
      same state and plan, the guard went on after exactly this handoff's
      acknowledgement and sent its confirmation, and the anchor went on after
      exactly that confirmation. */
  lemma ExecutionNeedsHandoff(c: Setting, start: World, actions: seq<Action>)
    requires Start(c, start) && Distinct(c)
    ensures var w := Play(c, start, actions);
      w.stub == Executing || w.released ==>
        && Witnessed(c, w)
        && w.ackRead == Some(Echo(c.nonce, c.senderBinding))
        && w.confirmed && w.sender == Admitted
        && w.confirmationRead == Some(Echo(c.nonce, c.anchorBinding))
  {
    hide Next, Play;
    StartInv(c, start);
    PlayInv(c, start, actions);
  }

  lemma NextKeepsError(c: Setting, w: World, a: Action)
    requires w.sender == Errored
    ensures Next(c, w, a).sender == Errored
  {
  }

  lemma HandshakeOnlyExits(c: Setting, w: World, a: Action)
    requires a.Send? || a.DropGate? || a.ReadAck? || a.Confirm? || a.FailSender?
      || a.Accept? || a.Ack? || a.ReadConfirmation? || a.Release? || a.FailAnchor?
    ensures Next(c, w, a).alive <= w.alive
  {
  }

  lemma RecoveryOnlyExits(c: Setting, w: World, a: Action)
    requires a.NoticeWorker? || a.ObserveExit? || a.OpenJournal? || a.Mutate? || a.Finish? || a.NoticeQuiet? || a.TimeOut?
    ensures Next(c, w, a).alive <= w.alive
  {
  }

  lemma RestOnlyExits(c: Setting, w: World, a: Action)
    requires a.ReadGate? || a.GiveUp? || a.Exit? || a.Noise?
    ensures Next(c, w, a).alive <= w.alive
  {
  }

  lemma NextOnlyExits(c: Setting, w: World, a: Action)
    ensures Next(c, w, a).alive <= w.alive
  {
    hide Next;
    if a.ReadGate? || a.GiveUp? || a.Exit? || a.Noise? { RestOnlyExits(c, w, a); }
    else if a.NoticeWorker? || a.ObserveExit? || a.OpenJournal? || a.Mutate? || a.Finish? || a.NoticeQuiet? || a.TimeOut? {
      RecoveryOnlyExits(c, w, a);
    } else { HandshakeOnlyExits(c, w, a); }
  }

  /** Once the guard's call has returned an error, it stays returned. */
  lemma {:induction false} ErrorStands(c: Setting, w: World, actions: seq<Action>)
    requires w.sender == Errored
    ensures Play(c, w, actions).sender == Errored
    decreases |actions|
  {
    hide Next;
    if actions != [] {
      NextKeepsError(c, w, actions[0]);
      ErrorStands(c, Next(c, w, actions[0]), actions[1..]);
    }
  }

  predicate FromGuard(a: Action) {
    a.Send? || a.DropGate? || a.ReadAck? || a.Confirm? || a.FailSender?
  }

  lemma ErrorStepKills(c: Setting, w: World, a: Action)
    requires FromGuard(a) && (w.sender == Errored ==> c.command !in w.alive)
    ensures var next := Next(c, w, a); next.sender == Errored ==> c.command !in next.alive
  {
    hide Acquirable;
  }

  lemma OthersLeaveSender(c: Setting, w: World, a: Action)
    requires !FromGuard(a)
    ensures Next(c, w, a).sender == w.sender
  {
  }

  /** A guard that returns an error has killed and reaped its command by then. */
  lemma {:induction false} ErrorKills(c: Setting, w: World, actions: seq<Action>)
    requires w.sender == Errored ==> c.command !in w.alive
    ensures var end := Play(c, w, actions); end.sender == Errored ==> c.command !in end.alive
    decreases |actions|
  {
    hide Next;
    if actions != [] {
      var a := actions[0];
      NextOnlyExits(c, w, a);
      if FromGuard(a) { ErrorStepKills(c, w, a); } else { OthersLeaveSender(c, w, a); }
      ErrorKills(c, Next(c, w, a), actions[1..]);
    }
  }

  /** If HandoffScoped returns an error the command has not run and never will,
      whatever anyone does afterwards. */
  lemma ErrorMeansNoExecution(c: Setting, start: World, before: seq<Action>, later: seq<Action>)
    requires Start(c, start) && Distinct(c)
    requires Play(c, start, before).sender == Errored
    ensures var w := Play(c, Play(c, start, before), later);
      !w.released && w.stub != Executing
  {
    hide Next, Play;
    var failed := Play(c, start, before);
    StartInv(c, start);
    PlayInv(c, start, before);
    PlayInv(c, failed, later);
    ErrorStands(c, failed, later);
  }

  lemma {:induction false} EndedAnchorNeverReleases(c: Setting, w: World, actions: seq<Action>)
    requires w.anchor == Ended && !w.released
    ensures Play(c, w, actions).anchor == Ended && !Play(c, w, actions).released
    decreases |actions|
  {
    if actions != [] {
      var next := Next(c, w, actions[0]);
      assert next.anchor == Ended && !next.released;
      EndedAnchorNeverReleases(c, next, actions[1..]);
    }
  }

  /** If the anchor is gone before it released the gate, the stub never executes. */
  lemma LostAnchorMeansNoExecution(c: Setting, start: World, before: seq<Action>, later: seq<Action>)
    requires Start(c, start) && Distinct(c)
    requires Play(c, start, before).anchor == Ended && !Play(c, start, before).released
    ensures Play(c, Play(c, start, before), later).stub != Executing
  {
    hide Next, Play;
    var lost := Play(c, start, before);
    StartInv(c, start);
    PlayInv(c, start, before);
    PlayInv(c, lost, later);
    EndedAnchorNeverReleases(c, lost, later);
  }

  /** No recovery mutation ever overlaps a live worker, guard or command. */
  lemma RecoveryNeverOverlaps(c: Setting, start: World, actions: seq<Action>)
    requires Start(c, start) && Distinct(c)
    ensures var w := Play(c, start, actions);
      && !w.overlapped
      && (w.mutations > 0 || w.anchor == Recovering ==>
            c.expectedWorker !in w.alive && c.guard !in w.alive && c.command !in w.alive)
  {
    hide Next, Play;
    StartInv(c, start);
    PlayInv(c, start, actions);
  }

  /** `RegisteredCommandSession.wait`: both exits observed, exit code 0, and a
      report of quiescence (or, for the broker, of a clean recovery). */
  predicate SessionQuiescent(c: Setting, w: World, allowRecovered: bool) {
    && c.guard !in w.alive && c.anchor !in w.alive && w.exitCode == Some(0)
    && (w.report == Some(Quiescent) || (allowRecovered && w.report == Some(Recovered)))
  }

  /** A session reported quiescent has no live guard, anchor or command, and
      none of them ever comes back. */
  lemma QuiescentMeansExited(c: Setting, start: World, actions: seq<Action>, later: seq<Action>, allowRecovered: bool)
    requires Start(c, start) && Distinct(c)
    requires SessionQuiescent(c, Play(c, start, actions), allowRecovered)
    ensures var w := Play(c, Play(c, start, actions), later);
      c.guard !in w.alive && c.anchor !in w.alive && c.command !in w.alive
  {
    hide Next, Play;
    StartInv(c, start);
    PlayInv(c, start, actions);
    ExitsAreFinal(c, Play(c, start, actions), later);
  }

  lemma {:induction false} ExitsAreFinal(c: Setting, w: World, actions: seq<Action>)
    ensures Play(c, w, actions).alive <= w.alive
    decreases |actions|
  {
    hide Next;
    if actions != [] {
      NextOnlyExits(c, w, actions[0]);
      ExitsAreFinal(c, Next(c, w, actions[0]), actions[1..]);
    }
  }

  // ---- what a report says ----

  /** What stands in the report since `w` was written by the matching step. */
  predicate Told(w: World, actions: seq<Action>, end: World) {
    && (end.report == Some(Quiescent) ==> w.report == Some(Quiescent) || NoticeQuiet(true) in actions)
    && (end.report == Some(Recovered) ==> w.report == Some(Recovered) || Finish(true, false, true) in actions)
    && (end.exitCode == Some(0) ==>
          w.exitCode == Some(0) || NoticeQuiet(true) in actions
          || Finish(true, false, true) in actions || Finish(true, false, false) in actions
          || Finish(false, false, true) in actions || Finish(false, false, false) in actions)
  }

  lemma RecoveryTells(c: Setting, w: World, a: Action)
    requires a.NoticeWorker? || a.ObserveExit? || a.OpenJournal? || a.Mutate? || a.Finish? || a.NoticeQuiet? || a.TimeOut?
    ensures Told(w, [a], Next(c, w, a))
  {
  }

  lemma OthersTell(c: Setting, w: World, a: Action)
    requires !(a.NoticeWorker? || a.ObserveExit? || a.OpenJournal? || a.Mutate? || a.Finish? || a.NoticeQuiet? || a.TimeOut?)
    ensures Told(w, [a], Next(c, w, a))
  {
    hide Acquirable, Stray;
  }

  lemma NextTells(c: Setting, w: World, a: Action)
    ensures Told(w, [a], Next(c, w, a))
  {
    hide Next, Told;
    if a.NoticeWorker? || a.ObserveExit? || a.OpenJournal? || a.Mutate? || a.Finish? || a.NoticeQuiet? || a.TimeOut? {
      RecoveryTells(c, w, a);
    } else { OthersTell(c, w, a); }
  }

  lemma {:induction false} PlayTells(c: Setting, w: World, actions: seq<Action>)
    ensures Told(w, actions, Play(c, w, actions))
    decreases |actions|
  {
    hide Next;
    if actions != [] {
      NextTells(c, w, actions[0]);
      PlayTells(c, Next(c, w, actions[0]), actions[1..]);
      assert forall a :: a in actions <==> a == actions[0] || a in actions[1..];
    }
  }

  /** A session passes for quiescent only after its anchor saw guard and command
      gone and could say so, or finished a recovery that was clean. */
  lemma QuiescentNeedsReport(c: Setting, start: World, actions: seq<Action>, allowRecovered: bool)
    requires Start(c, start) && SessionQuiescent(c, Play(c, start, actions), allowRecovered)
    ensures NoticeQuiet(true) in actions || (allowRecovered && Finish(true, false, true) in actions)
  {
    hide Next, Play;
    PlayTells(c, start, actions);
  }

  // ---- what had to happen before ----

  /** The anchor took its witness with its binding unchanged, and so it started to
      recover; the gate was released while the stub was still waiting at it. */
  ghost predicate Earned(c: Setting, start: World, actions: seq<Action>) {
    var w := Play(c, start, actions);
    && (AnchorOwns(w.anchor) || w.released ==> Accept(true) in actions)
    && (w.anchor.Observing? || w.anchor.Recovering? || w.mutations > 0 ==> NoticeWorker(true) in actions)
    && (w.released ==> exists k :: 0 <= k < |actions| && ReleasedAt(c, start, actions, k))
  }

  predicate ReleasedAt(c: Setting, start: World, actions: seq<Action>, k: nat)
    requires k < |actions|
  {
    var w := Play(c, start, actions[..k]);
    actions[k] == Release && w.stub == Paused && w.anchor == Confirmed
  }

  lemma {:induction false} PlayAppend(c: Setting, w: World, a: seq<Action>, b: seq<Action>)
    ensures Play(c, w, a + b) == Play(c, Play(c, w, a), b)
    decreases |a|
  {
    hide Next;
    if a == [] {
      assert a + b == b;
    } else {
      assert (a + b)[1..] == a[1..] + b;
      PlayAppend(c, Next(c, w, a[0]), a[1..], b);
    }
  }

  /** One step earns what it brings. */
  predicate Earns(w: World, a: Action, next: World) {
    && (AnchorOwns(next.anchor) || next.released ==> AnchorOwns(w.anchor) || w.released || a == Accept(true))
    && (next.anchor.Observing? || next.anchor.Recovering? || next.mutations > 0 ==>
          w.anchor.Observing? || w.anchor.Recovering? || w.mutations > 0 || a == NoticeWorker(true))
    && (next.released && !w.released ==> a == Release && w.stub == Paused && w.anchor == Confirmed)
  }

  lemma GuardEarns(c: Setting, w: World, a: Action)
    requires a.Send? || a.DropGate? || a.ReadAck? || a.Confirm? || a.FailSender? || a.ReadGate? || a.GiveUp? || a.Exit? || a.Noise?
    ensures Earns(w, a, Next(c, w, a))
  {
    hide Acquirable, Stray;
  }

  lemma AnchorEarns(c: Setting, w: World, a: Action)
    requires a.Accept? || a.Ack? || a.ReadConfirmation? || a.Release? || a.FailAnchor?
    ensures Earns(w, a, Next(c, w, a))
  {
    hide Acquirable;
  }

  lemma RecoveryEarns(c: Setting, w: World, a: Action)
    requires a.NoticeWorker? || a.ObserveExit? || a.OpenJournal? || a.Mutate? || a.Finish? || a.NoticeQuiet? || a.TimeOut?
    ensures Earns(w, a, Next(c, w, a))
  {
  }

  lemma NextEarns(c: Setting, w: World, a: Action)
    ensures Earns(w, a, Next(c, w, a))
  {
    hide Next, Earns;
    if a.NoticeWorker? || a.ObserveExit? || a.OpenJournal? || a.Mutate? || a.Finish? || a.NoticeQuiet? || a.TimeOut? {
      RecoveryEarns(c, w, a);
    } else if a.Accept? || a.Ack? || a.ReadConfirmation? || a.Release? || a.FailAnchor? {
      AnchorEarns(c, w, a);
    } else { GuardEarns(c, w, a); }
  }

  /** In every interleaving. */
  lemma {:induction false} EveryRunEarns(c: Setting, start: World, actions: seq<Action>)
    requires Start(c, start)
    ensures Earned(c, start, actions)
    decreases |actions|
  {
    hide Next, Play;
    if actions == [] {
      assert Play(c, start, []) == start by { PlayNothing(c, start); }
    } else {
      var n := |actions| - 1;
      var before := Play(c, start, actions[..n]);
      EveryRunEarns(c, start, actions[..n]);
      PlayLast(c, start, actions);
      NextEarns(c, before, actions[n]);
      assert forall a :: a in actions[..n] ==> a in actions;
      if before.released {
        var k :| 0 <= k < n && ReleasedAt(c, start, actions[..n], k);
        assert actions[..n][..k] == actions[..k];
        assert ReleasedAt(c, start, actions, k);
      } else if Play(c, start, actions).released {
        assert ReleasedAt(c, start, actions, n);
      }
    }
  }

  lemma PlayNothing(c: Setting, w: World)
    ensures Play(c, w, []) == w
  {
  }

  lemma PlayLast(c: Setting, w: World, actions: seq<Action>)
    requires actions != []
    ensures var n := |actions| - 1; Play(c, w, actions) == Next(c, Play(c, w, actions[..n]), actions[n])
  {
    hide Next;
    var n := |actions| - 1;
    var before := Play(c, w, actions[..n]);
    PlayAppend(c, w, actions[..n], [actions[n]]);
    assert actions[..n] + [actions[n]] == actions && [actions[n]][1..] == [];
    PlayNothing(c, Next(c, before, actions[n]));
  }

  lemma {:induction false} GuardHolds(c: Setting, w: World, actions: seq<Action>)
    requires SenderHolds in w.gate ==> c.guard in w.alive
    requires c.guard != c.anchor && c.guard != c.command
    ensures var end := Play(c, w, actions); SenderHolds in end.gate ==> c.guard in end.alive
    decreases |actions|
  {
    hide Next;
    if actions != [] {
      GuardHoldsStep(c, w, actions[0]);
      GuardHolds(c, Next(c, w, actions[0]), actions[1..]);
    }
  }

  lemma GuardHoldsStep(c: Setting, w: World, a: Action)
    requires SenderHolds in w.gate ==> c.guard in w.alive
    requires c.guard != c.anchor && c.guard != c.command
    ensures var end := Next(c, w, a); SenderHolds in end.gate ==> c.guard in end.alive
  {
    hide Next;
    if a.Exit? { ExitHolds(c, w, a.id); }
    else if FromGuard(a) { GuardStepHolds(c, w, a); }
    else if a.Accept? || a.Ack? || a.ReadConfirmation? || a.Release? || a.FailAnchor? { AnchorStepHolds(c, w, a); }
    else if a.ReadGate? || a.GiveUp? || a.Noise? { StubStepHolds(c, w, a); }
    else { RecoveryStepHolds(c, w, a); }
  }

  lemma ExitHolds(c: Setting, w: World, id: Id)
    requires SenderHolds in w.gate ==> c.guard in w.alive
    requires c.guard != c.anchor && c.guard != c.command
    ensures var end := Next(c, w, Exit(id)); SenderHolds in end.gate ==> c.guard in end.alive
  {
  }

  lemma GuardStepHolds(c: Setting, w: World, a: Action)
    requires FromGuard(a) && c.guard != c.command
    ensures var end := Next(c, w, a); end.gate - {InTransit} <= w.gate && (c.guard in w.alive ==> c.guard in end.alive)
  {
    hide Acquirable;
  }

  lemma AnchorStepHolds(c: Setting, w: World, a: Action)
    requires a.Accept? || a.Ack? || a.ReadConfirmation? || a.Release? || a.FailAnchor?
    requires c.guard != c.anchor
    ensures var end := Next(c, w, a); end.gate - {AnchorHolds} <= w.gate && (c.guard in w.alive ==> c.guard in end.alive)
  {
    hide Acquirable;
  }

  lemma RecoveryStepHolds(c: Setting, w: World, a: Action)
    requires a.NoticeWorker? || a.ObserveExit? || a.OpenJournal? || a.Mutate? || a.Finish? || a.NoticeQuiet? || a.TimeOut?
    requires c.guard != c.anchor
    ensures var end := Next(c, w, a); end.gate <= w.gate && (c.guard in w.alive ==> c.guard in end.alive)
  {
  }

  lemma StubStepHolds(c: Setting, w: World, a: Action)
    requires (a.ReadGate? || a.GiveUp? || a.Noise?) && c.guard != c.command
    ensures var end := Next(c, w, a); end.gate == w.gate && (c.guard in w.alive ==> c.guard in end.alive)
  {
    hide Stray;
  }

  /** A stub whose gate nobody can release any more reads the end of it and exits:
      the anchor is gone without releasing, and so is the guard, or it has let go. */
  lemma OrphanStubEnds(c: Setting, start: World, actions: seq<Action>)
    requires Start(c, start) && Distinct(c)
    requires var w := Play(c, start, actions);
      && w.stub == Paused && w.anchor == Ended && !w.released
      && (c.guard !in w.alive || w.sender !in {Ready, SentHoldingGate})
    ensures var end := Next(c, Play(c, start, actions), ReadGate);
      end.stub == Over && c.command !in end.alive
  {
    hide Play;
    StartInv(c, start);
    PlayInv(c, start, actions);
    GuardHolds(c, start, actions);
    var w := Play(c, start, actions);
    assert forall h :: h in w.gate ==> h == SenderHolds || h == InTransit || h == AnchorHolds;
    assert w.gate == {};
  }

  predicate Compatible(c: Setting, start: World) {
    && Start(c, start) && Distinct(c)
    && c.claimedWorker == c.expectedWorker && c.guard == c.expectedGuard && c.senderBinding == c.anchorBinding
    && c.claimedWorker in start.alive && c.claimedWorker != c.guard && c.claimedWorker != c.command
  }

  /** The guard's request reaches the anchor and is acknowledged. */
  function AfterAck(c: Setting, start: World): World {
    Next(c, Next(c, Next(c, Next(c, start, Send), DropGate), Accept(true)), Ack)
  }

  function AfterRead(c: Setting, acked: World): World {
    Next(c, Next(c, Next(c, Next(c, Next(c, acked, ReadAck), Confirm), ReadConfirmation), Release), ReadGate)
  }

  lemma AcknowledgedState(c: Setting, start: World)
    requires Compatible(c, start)
    ensures var w := AfterAck(c, start);
      && w.sender == Sent && w.anchor == Acked && w.stub == Paused && w.toAnchor == [] && w.gate == {AnchorHolds}
      && w.toSender == [Echo(c.nonce, c.anchorBinding)] && w.alive == start.alive && !w.released
      && w.held == Some(Triple(c.expectedWorker, c.guard, c.command)) && w.mutations == 0
  {
  }

  lemma ConfirmedState(c: Setting, w: World)
    requires w.sender == Sent && w.anchor == Acked && w.toAnchor == []
    requires w.toSender == [Echo(c.nonce, c.anchorBinding)]
    requires {c.guard, c.anchor} <= w.alive && c.senderBinding == c.anchorBinding
    ensures Next(c, Next(c, Next(c, w, ReadAck), Confirm), ReadConfirmation)
      == w.(sender := Admitted, confirmed := true, toSender := [], anchor := Confirmed,
            ackRead := Some(Echo(c.nonce, c.anchorBinding)), confirmationRead := Some(Echo(c.nonce, c.anchorBinding)))
  {
    assert Next(c, w, ReadAck) == w.(sender := Validated, ackRead := Some(Echo(c.nonce, c.anchorBinding)), toSender := []);
  }

  lemma ReleasedState(c: Setting, w: World)
    requires w.anchor == Confirmed && w.stub == Paused && w.gate == {AnchorHolds} && {c.command, c.anchor} <= w.alive
    ensures var done := w.(anchor := Watching, released := true, gate := {});
      Next(c, w, Release) == done && Next(c, done, ReadGate) == done.(stub := Executing)
  {
  }

  lemma ExecutedState(c: Setting, w: World)
    requires w.sender == Sent && w.anchor == Acked && w.stub == Paused && w.toAnchor == [] && w.gate == {AnchorHolds}
    requires w.toSender == [Echo(c.nonce, c.anchorBinding)] && !w.released
    requires {c.guard, c.command, c.anchor} <= w.alive && c.senderBinding == c.anchorBinding
    ensures var end := AfterRead(c, w);
      end.stub == Executing && end.gate == {} && end.anchor == Watching
  {
    ConfirmedState(c, w);
    hide Next;
    var heard := w.(sender := Admitted, confirmed := true, toSender := [], anchor := Confirmed,
      ackRead := Some(Echo(c.nonce, c.anchorBinding)), confirmationRead := Some(Echo(c.nonce, c.anchorBinding)));
    assert Next(c, heard, Release) == heard.(anchor := Watching, released := true, gate := {}) by { ReleasedState(c, heard); }
    assert Next(c, heard.(anchor := Watching, released := true, gate := {}), ReadGate).stub == Executing by { ReleasedState(c, heard); }
  }

  /** The handshake can complete: with matching roles and bindings the stub runs,
      and by then nobody holds a write end of its gate. */
  lemma HandoffCompletes(c: Setting, start: World)
    requires Compatible(c, start)
    ensures var acked := Play(c, start, [Send, DropGate, Accept(true), Ack]);
      var w := Play(c, acked, [ReadAck, Confirm, ReadConfirmation, Release, ReadGate]);
      w.stub == Executing && w.gate == {} && w.anchor == Watching
  {
    hide Next;
    AcknowledgedState(c, start);
    var acked := AfterAck(c, start);
    ExecutedState(c, acked);
    var w1 := Next(c, start, Send);
    var w2 := Next(c, w1, DropGate);
    PlayCons(c, start, Send, [DropGate, Accept(true), Ack]);
    PlayCons(c, w1, DropGate, [Accept(true), Ack]);
    PlayCons(c, w2, Accept(true), [Ack]);
    PlayCons(c, Next(c, w2, Accept(true)), Ack, []);
    var w5 := Next(c, acked, ReadAck);
    var w6 := Next(c, w5, Confirm);
    var w7 := Next(c, w6, ReadConfirmation);
    PlayCons(c, acked, ReadAck, [Confirm, ReadConfirmation, Release, ReadGate]);
    PlayCons(c, w5, Confirm, [ReadConfirmation, Release, ReadGate]);
    PlayCons(c, w6, ReadConfirmation, [Release, ReadGate]);
    PlayCons(c, w7, Release, [ReadGate]);
    PlayCons(c, Next(c, w7, Release), ReadGate, []);
  }

  lemma PlayCons(c: Setting, w: World, a: Action, rest: seq<Action>)
    ensures Play(c, w, [a] + rest) == Play(c, Next(c, w, a), rest)
  {
    hide Next;
    assert ([a] + rest)[1..] == rest;
  }
}
