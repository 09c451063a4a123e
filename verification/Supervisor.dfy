/** supervisor_linux.go and superviseBrokeredScoped: launching, stopping, reaping
    and restarting a worker behind a durable marker, over any number of launcher
    runs that may themselves be killed at any point. The worker's commands go
    through the broker of module Broker, its operations and the cleanup after
    it through the journal of module Journal, on one and the same kernel. */
module Supervisor {
  import opened Text
  import opened Plan
  import opened KernelState
  import J = Journal
  import Safety = JournalSafety
  import Runs = JournalRuns
  import B = Broker

  // ---- one attempt: superviseAttemptWithBroker ----

  datatype Factory = FactoryFails | ReturnsStarted | ReturnsInvalid | ReturnsUnstarted

  datatype Ending = StopRequested | ExitBeforeReady | ReadinessInvalid | ReadyThenStop | ReadyThenExit | ReadinessTimeout

  /** Everything outside the supervisor's control in one attempt. */
  datatype Chances = Chances(
    factory: Factory,
    pipe: bool,            // the readiness pipe could be made
    start: bool,           // the process started
    pidfd: bool,           // its identity could be pinned
    reapedAfterKill: bool, // an early kill was reaped in time
    brokerPinned: bool,    // the broker could copy the identity
    ending: Ending,
    exitedByThen: bool,
    termSent: bool,
    exitsInGrace: bool,
    killSent: bool,
    exitsInWait: bool,
    exitCode: int)

  datatype Reason =
    | LaunchFailed
    | FactoryReturnedStartedWorker
    | IdentityAcquisitionFailed
    | BrokerIdentityFailed
    | Ran(ending: Ending)

  datatype Attempt = Attempt(
    reason: Reason,
    ready: bool,
    exitObserved: bool,
    exitCode: int,
    termRequested: bool,
    killRequested: bool)

  /** The attempt's record, whether a worker process came to exist, and whether
      the broker loop was started for it. */
  datatype Outcome = Outcome(attempt: Attempt, launched: bool, served: bool)

  function Ready(e: Ending): bool {
    e.ReadyThenStop? || e.ReadyThenExit?
  }

  function RunAttempt(c: Chances): Outcome {
    var none := Attempt(LaunchFailed, false, false, -1, false, false);
    if c.factory.FactoryFails? then Outcome(none, false, false)
    else if c.factory.ReturnsStarted? then Outcome(none.(reason := FactoryReturnedStartedWorker), true, false)
    else if c.factory.ReturnsInvalid? || !c.pipe || !c.start then Outcome(none, false, false)
    else if !c.pidfd then
      Outcome(none.(reason := IdentityAcquisitionFailed, exitObserved := c.reapedAfterKill), true, false)
    else if !c.brokerPinned then
      Outcome(none.(reason := BrokerIdentityFailed, exitObserved := c.reapedAfterKill), true, false)
    else
      var ran := none.(reason := Ran(c.ending), ready := Ready(c.ending));
      var exited := ran.(exitObserved := true, exitCode := c.exitCode);
      if c.ending.ExitBeforeReady? || c.ending.ReadyThenExit? || c.exitedByThen then Outcome(exited, true, true)
      else if !c.termSent then Outcome(ran.(termRequested := true), true, true)
      else if c.exitsInGrace then Outcome(exited.(termRequested := true), true, true)
      else if !c.killSent || !c.exitsInWait then Outcome(ran.(termRequested := true, killRequested := true), true, true)
      else Outcome(exited.(termRequested := true, killRequested := true), true, true)
  }

  // ---- one launcher run: superviseBrokeredScoped ----

  datatype Round = Round(
    cancelledBefore: bool,  // the context ended, or ended during the backoff
    socketpair: bool,
    chances: Chances,
    work: seq<J.Event>,     // what the worker does with the journal while it lives
    packets: seq<B.Packet>, // what its broker receives
    drained: bool,          // the broker loop finished in time
    binding: Option<nat>,   // the state and plan binding read afterwards
    inTime: bool,           // the cleanup kept its deadline
    cancelledAfter: bool)

  datatype Clearing = Cleared | NotCleared | ClearedUnsynced

  datatype Session = Session(
    admitted: bool,         // arguments, options and session lock
    binding: nat,
    markerDurable: bool,
    inTime: bool,
    maxRestarts: nat,
    rounds: nat -> Round,
    clearing: Clearing)

  /** What a run does and observes, in order; a killed run leaves a prefix of it. */
  datatype Fact =
    | RunBegins
    | MarkerSet
    | MarkerCleared
    | Cancelled                                                // the context was found ended
    | NoChannel                                                // no socket pair could be made
    | FactoryCalled
    | Launched(w: J.Earth)                                     // and the world it finds
    | Readied                                                  // a valid readiness record was read
    | Reaped(code: int)
    | Registry(tally: B.Tally, started: seq<B.Started>)        // as the broker left it
    | Binding(expected: nat, current: Option<nat>)
    | Cleanup(ok: bool)

  datatype Verdict = Blocked | Stopped | Completed | Exhausted

  datatype Result = Result(verdict: Verdict, clean: bool, attempts: nat)

  /** One journal, one plan, one source of failures. */
  datatype Place = Place(site: Site, tape: J.Tape)

  function AttemptFacts(o: Outcome, w: J.Earth): seq<Fact> {
    [FactoryCalled] + (if o.launched then [Launched(w)] else []) + (if o.launched && o.attempt.ready then [Readied] else [])
    + (if o.launched && o.attempt.exitObserved then [Reaped(o.attempt.exitCode)] else [])
  }

  /** The worker's controllers come and go; when it is gone none is left. */
  function Worked(at: Place, w: J.Earth, work: seq<J.Event>): J.Earth {
    J.Play(at.site, at.tape, J.System(w, None), work).w
  }

  const NO_COMMANDS := B.Tally(0, 0, false, false, true)

  /** The registry after the attempt: the broker loop's if it was started. */
  function RegistryOf(at: Place, o: Outcome, packets: seq<B.Packet>): (B.Tally, seq<B.Started>) {
    if o.served then (var b := B.RunLoop(at.site.plan, packets); (b.registry, b.started)) else (NO_COMMANDS, [])
  }

  function CleanUp(at: Place, w: J.Earth, inTime: bool): (J.Earth, bool) {
    var (after, exit) := Runs.Cleanup(at.site, at.tape, w);
    (after, exit.Done? && inTime)
  }

  datatype Turn = Turn(r: Result, facts: seq<Fact>, again: bool, w: J.Earth)

  /** One turn of the attempt loop: its result so far, what it leaves behind, and
      whether the loop goes on. */
  function OneRound(at: Place, s: Session, number: nat, w: J.Earth): (t: Turn)
    ensures t.again ==> t.r == Result(Blocked, true, 1)
  {
    var round := s.rounds(number);
    if round.cancelledBefore then Turn(Result(Stopped, true, 0), [Cancelled], false, w)
    else if !round.socketpair then Turn(Result(Blocked, true, 0), [NoChannel], false, w)
    else
      var o := RunAttempt(round.chances);
      var facts := AttemptFacts(o, w);
      var w1 := if o.launched then Worked(at, w, round.work) else w;
      if o.served && !round.drained then Turn(Result(Blocked, false, 1), facts, false, w1)
      else
        var (tally, started) := RegistryOf(at, o, round.packets);
        var counted := facts + [Registry(tally, started)];
        if (!o.attempt.exitObserved && o.attempt.reason != LaunchFailed) || !B.CleanGate(tally)
        then Turn(Result(Blocked, false, 1), counted, false, w1)
        else
          var bound := counted + [Binding(s.binding, round.binding)];
          if round.binding != Some(s.binding) then Turn(Result(Blocked, false, 1), bound, false, w1)
          else
            var (w2, ok) := CleanUp(at, w1, round.inTime);
            var settled := bound + [Cleanup(ok)];
            if !ok then Turn(Result(Blocked, false, 1), settled, false, w2)
            else if round.cancelledAfter then Turn(Result(Stopped, true, 1), settled + [Cancelled], false, w2)
            else if o.attempt.ready && o.attempt.exitObserved && o.attempt.exitCode == 0
            then Turn(Result(Completed, true, 1), settled, false, w2)
            else if number == s.maxRestarts then Turn(Result(Exhausted, true, 1), settled, false, w2)
            else Turn(Result(Blocked, true, 1), settled, true, w2)
  }

  /** The attempt loop from attempt `number` on, entered with a clean state. */
  function Rounds(at: Place, s: Session, number: nat, w: J.Earth): (Result, seq<Fact>, J.Earth)
    decreases s.maxRestarts + 1 - number
  {
    if number > s.maxRestarts then (Result(Blocked, true, 0), [], w)
    else
      var t := OneRound(at, s, number, w);
      if !t.again then (t.r, t.facts, t.w)
      else
        var (rest, more, last) := Rounds(at, s, number + 1, t.w);
        (rest.(attempts := rest.attempts + 1), t.facts + more, last)
  }

  /** The deferred removal of the marker. */
  function Close(s: Session, r: Result): (Result, seq<Fact>) {
    if !r.clean then (r, [])
    else
      match s.clearing
      case Cleared => (r, [MarkerCleared])
      case NotCleared => (r.(verdict := Blocked, clean := false), [])
      case ClearedUnsynced => (r.(verdict := Blocked, clean := false), [MarkerCleared])
  }

  const REFUSED := Result(Blocked, false, 0)

  /** The journal opens with nothing owned and nothing pending. */
  predicate Idling(at: Place, w: J.Earth) {
    var r := J.Open(at.site, w.disk);
    r.Some? && r.value.owned == 0 && r.value.pending == ""
  }

  function RunSession(at: Place, s: Session, marker: bool, w: J.Earth): (Result, seq<Fact>, J.Earth) {
    if !s.admitted || !Idling(at, w) || marker then (REFUSED, [RunBegins], w)
    else if !s.markerDurable then (REFUSED, [RunBegins, MarkerSet], w)
    else
      var (w1, ok) := CleanUp(at, w, s.inTime);
      if !ok then (REFUSED, [RunBegins, MarkerSet, Cleanup(false)], w1)
      else
        var (r, facts, w2) := Rounds(at, s, 0, w1);
        var (closed, last) := Close(s, r);
        (closed, [RunBegins, MarkerSet, Cleanup(true)] + facts + last, w2)
  }

  /** The body of the attempt loop, step by step. */
  method AttemptOnce(at: Place, s: Session, number: nat, before: J.Earth) returns (r: Result, facts: seq<Fact>, again: bool, w: J.Earth)
    ensures Turn(r, facts, again, w) == OneRound(at, s, number, before)
  {
    hide RunAttempt, AttemptFacts, RegistryOf, CleanUp, Worked;
    r, facts, again, w := Result(Blocked, true, 0), [], false, before;
    var round := s.rounds(number);
    if round.cancelledBefore { return r.(verdict := Stopped), [Cancelled], false, w; }
    if !round.socketpair { return r, [NoChannel], false, w; }
    r := r.(clean := false);
    var o := RunAttempt(round.chances);
    facts := AttemptFacts(o, w);
    if o.launched { w := Worked(at, w, round.work); }
    r := r.(attempts := 1);
    if o.served && !round.drained { return; }
    var tally, started := RegistryOf(at, o, round.packets).0, RegistryOf(at, o, round.packets).1;
    facts := facts + [Registry(tally, started)];
    if (!o.attempt.exitObserved && o.attempt.reason != LaunchFailed) || !B.CleanGate(tally) { return; }
    facts := facts + [Binding(s.binding, round.binding)];
    if round.binding != Some(s.binding) { return; }
    var ok := CleanUp(at, w, round.inTime).1;
    w := CleanUp(at, w, round.inTime).0;
    facts := facts + [Cleanup(ok)];
    if !ok { return; }
    r := r.(clean := true);
    if round.cancelledAfter { return r.(verdict := Stopped), facts + [Cancelled], false, w; }
    if o.attempt.ready && o.attempt.exitObserved && o.attempt.exitCode == 0 {
      return r.(verdict := Completed), facts, false, w;
    }
    if number == s.maxRestarts { return r.(verdict := Exhausted), facts, false, w; }
    again := true;
  }

  /** The loop resumed at attempt `number` with what was done before. */
  function Resumed(at: Place, s: Session, number: nat, w: J.Earth, attempts: nat, done: seq<Fact>): (Result, seq<Fact>, J.Earth) {
    var (r, facts, last) := Rounds(at, s, number, w);
    (r.(attempts := r.attempts + attempts), done + facts, last)
  }

  /** The launcher's run. */
  method Supervise(at: Place, s: Session, marker: bool, before: J.Earth) returns (r: Result, facts: seq<Fact>, w: J.Earth)
    ensures (r, facts, w) == RunSession(at, s, marker, before)
  {
    hide OneRound, CleanUp, Idling;
    r, facts, w := REFUSED, [RunBegins], before;
    if !s.admitted || !Idling(at, before) || marker { return; }
    facts := [RunBegins, MarkerSet];
    if !s.markerDurable { return; }
    var ok := CleanUp(at, w, s.inTime).1;
    w := CleanUp(at, w, s.inTime).0;
    if !ok { return r, [RunBegins, MarkerSet, Cleanup(false)], w; }
    ghost var first := w;
    var number, attempts, done := 0, 0, [];
    var going := true;
    r := Result(Blocked, true, 0);
    assert [] + Rounds(at, s, 0, first).1 == Rounds(at, s, 0, first).1;
    while going && number <= s.maxRestarts
      invariant 0 <= number <= s.maxRestarts + 1
      invariant going ==> attempts == number && r == Result(Blocked, true, attempts)
      invariant going ==> Rounds(at, s, 0, first) == Resumed(at, s, number, w, attempts, done)
      invariant !going ==> Rounds(at, s, 0, first) == (r, done, w)
      decreases going, s.maxRestarts + 1 - number
    {
      var once, added, again, next := AttemptOnce(at, s, number, w);
      ghost var more := if again then Rounds(at, s, number + 1, next).1 else [];
      assert done + (added + more) == (done + added) + more;
      assert added + [] == added && (done + added) + [] == done + added;
      attempts := attempts + once.attempts;
      r := once.(attempts := attempts);
      done := done + added;
      going := again;
      number := number + 1;
      w := next;
    }
    assert done + [] == done;
    var closed, last := Close(s, r).0, Close(s, r).1;
    r, facts := closed, [RunBegins, MarkerSet, Cleanup(true)] + done + last;
  }

  // ---- what a history of runs may contain ----

  /** Stuck: something observed since the launch forbids another one. */
  datatype Stage = Idle | Live | Exited | Gated | Bound | Stuck

  datatype Standing = Illegal | Legal(marker: bool, mine: bool, stage: Stage)

  /** Every process of every command the broker started has exited for good. */
  ghost predicate AllGone(started: seq<B.Started>) {
    forall k :: 0 <= k < |started| ==> B.Gone(started[k].launch)
  }

  /** The values observed decide: a clean gate with all its commands gone, the
      binding the run began with, a cleanup that succeeded. */
  ghost function Judge(site: Site, before: Standing, f: Fact): Standing {
    if before.Illegal? then Illegal
    else
      match f
      case RunBegins => before.(mine := false)
      case MarkerSet => if !before.marker && before.stage == Idle then Legal(true, true, Idle) else Illegal
      case MarkerCleared => if before.mine && before.stage == Idle then Legal(false, false, Idle) else Illegal
      case FactoryCalled => if before.mine && before.stage == Idle then before else Illegal
      case Launched(w) =>
        if before.mine && before.stage == Idle && Safety.Shape(site, w.kernel, 0) then before.(stage := Live) else Illegal
      case Cancelled => if before.mine then before else Illegal
      case NoChannel => if before.mine then before else Illegal
      case Readied => if before.mine && before.stage == Live then before else Illegal
      case Reaped(_) => if before.mine && before.stage == Live then before.(stage := Exited) else Illegal
      case Registry(tally, started) =>
        if !before.mine || before.stage !in {Idle, Live, Exited} then Illegal
        else if before.stage == Live || !B.CleanGate(tally) || !AllGone(started) then before.(stage := Stuck)
        else before.(stage := if before.stage == Exited then Gated else Idle)
      case Binding(expected, current) =>
        if !before.mine || before.stage !in {Idle, Gated} then Illegal
        else if current != Some(expected) then before.(stage := Stuck)
        else before.(stage := if before.stage == Gated then Bound else Idle)
      case Cleanup(ok) =>
        if !before.mine || before.stage !in {Idle, Bound} then Illegal
        else before.(stage := if ok then Idle else Stuck)
  }

  ghost function Standings(site: Site, h: seq<Fact>, start: Standing): Standing
    decreases |h|
  {
    if h == [] then start else Standings(site, h[1..], Judge(site, start, h[0]))
  }

  const NOTHING_YET := Legal(false, false, Idle)

  lemma {:induction false} StandingsAppend(site: Site, a: seq<Fact>, b: seq<Fact>, start: Standing)
    ensures Standings(site, a + b, start) == Standings(site, b, Standings(site, a, start))
    decreases |a|
  {
    hide Judge;
    if a == [] {
      assert a + b == b;
    } else {
      assert (a + b)[1..] == a[1..] + b;
      StandingsAppend(site, a[1..], b, Judge(site, start, a[0]));
    }
  }

  lemma {:induction false} IllegalStays(site: Site, h: seq<Fact>)
    ensures Standings(site, h, Illegal) == Illegal
    decreases |h|
  {
    if h != [] { IllegalStays(site, h[1..]); }
  }

  /** A killed run leaves a prefix, and a prefix of a legal history is legal. */
  lemma PrefixLegal(site: Site, h: seq<Fact>, n: nat, start: Standing)
    requires n <= |h| && Standings(site, h, start).Legal?
    ensures Standings(site, h[..n], start).Legal?
  {
    assert h == h[..n] + h[n..];
    StandingsAppend(site, h[..n], h[n..], start);
    if Standings(site, h[..n], start).Illegal? { IllegalStays(site, h[n..]); }
  }

  lemma NoFacts(site: Site, start: Standing)
    ensures Standings(site, [], start) == start
  {
  }

  lemma NextFact(site: Site, h: seq<Fact>, f: Fact, start: Standing)
    ensures Standings(site, h + [f], start) == Judge(site, Standings(site, h, start), f)
  {
    hide Judge;
    StandingsAppend(site, h, [f], start);
    assert [f][1..] == [];
    NoFacts(site, Judge(site, Standings(site, h, start), f));
  }

  // ---- every turn of the loop is legal ----

  const OURS := Legal(true, true, Idle)

  /** Where an attempt has got to when its facts end. */
  function Reached(o: Outcome): Stage {
    if !o.launched then Idle else if o.attempt.exitObserved then Exited else Live
  }

  lemma AttemptLegal(site: Site, c: Chances, w: J.Earth)
    requires Safety.Shape(site, w.kernel, 0)
    ensures var o := RunAttempt(c);
      && Standings(site, AttemptFacts(o, w), OURS) == OURS.(stage := Reached(o))
      && (o.launched && !o.attempt.exitObserved ==> o.attempt.reason != LaunchFailed)
  {
    hide Standings, Safety.Shape;
    var o := RunAttempt(c);
    NoFacts(site, OURS);
    NextFact(site, [], FactoryCalled, OURS);
    assert [] + [FactoryCalled] == [FactoryCalled];
    var a := if o.launched then [Launched(w)] else [];
    var b := if o.launched && o.attempt.ready then [Readied] else [];
    var d := if o.launched && o.attempt.exitObserved then [Reaped(o.attempt.exitCode)] else [];
    if o.launched { NextFact(site, [FactoryCalled], Launched(w), OURS); }
    assert [FactoryCalled] + [] == [FactoryCalled];
    var first := [FactoryCalled] + a;
    if o.launched && o.attempt.ready { NextFact(site, first, Readied, OURS); }
    assert first + [] == first;
    var second := first + b;
    if o.launched && o.attempt.exitObserved { NextFact(site, second, Reaped(o.attempt.exitCode), OURS); }
    assert second + [] == second;
    assert AttemptFacts(o, w) == second + d;
  }

  lemma RegistryClean(at: Place, o: Outcome, packets: seq<B.Packet>)
    requires B.ProperPackets(packets)
    ensures var (tally, started) := RegistryOf(at, o, packets);
      B.CleanGate(tally) ==> AllGone(started)
  {
    hide B.RunLoop, B.Gone, B.Allowed;
    B.CleanGateMeansExited(at.site.plan, packets);
  }

  /** The world the launcher acts in, and that no controller is left in it. */
  predicate Sound(at: Place, w: J.Earth) {
    ValidPlan(at.site.plan) && Safety.Safe(at.site, w)
  }

  lemma WorkedSound(at: Place, w: J.Earth, work: seq<J.Event>)
    requires Sound(at, w)
    ensures Sound(at, Worked(at, w, work))
  {
    hide Safety.Safe;
    Runs.EveryRunSafe(at.site, at.tape, J.System(w, None), work);
  }

  lemma CleanUpSound(at: Place, w: J.Earth, inTime: bool)
    requires Sound(at, w)
    ensures var (after, ok) := CleanUp(at, w, inTime);
      Sound(at, after) && (ok ==> Safety.Shape(at.site, after.kernel, 0))
  {
    hide Safety.Safe, Safety.Shape, Runs.Cleanup;
    Runs.CleanupEmpties(at.site, at.tape, w);
  }

  ghost predicate ProperSession(s: Session) {
    forall n :: B.ProperPackets(s.rounds(n).packets)
  }

  lemma RoundLegal(at: Place, s: Session, number: nat, w: J.Earth)
    requires Sound(at, w) && Safety.Shape(at.site, w.kernel, 0) && ProperSession(s)
    ensures var t := OneRound(at, s, number, w);
      var end := Standings(at.site, t.facts, OURS);
      && Sound(at, t.w)
      && end.Legal? && end.marker && end.mine && (t.r.clean ==> end.stage == Idle)
      && (t.again ==> Safety.Shape(at.site, t.w.kernel, 0))
  {
    hide RunAttempt, AttemptFacts, Standings, Sound, Safety.Shape, RegistryOf, CleanUp, Worked, AllGone, B.CleanGate;
    NoFacts(at.site, OURS);
    var round := s.rounds(number);
    var o := RunAttempt(round.chances);
    var facts := AttemptFacts(o, w);
    var w1 := if o.launched then Worked(at, w, round.work) else w;
    AttemptLegal(at.site, round.chances, w);
    WorkedSound(at, w, round.work);
    var (tally, started) := RegistryOf(at, o, round.packets);
    RegistryClean(at, o, round.packets);
    NextFact(at.site, facts, Registry(tally, started), OURS);
    var counted := facts + [Registry(tally, started)];
    NextFact(at.site, counted, Binding(s.binding, round.binding), OURS);
    var bound := counted + [Binding(s.binding, round.binding)];
    CleanUpSound(at, w1, round.inTime);
    var ok := CleanUp(at, w1, round.inTime).1;
    NextFact(at.site, bound, Cleanup(ok), OURS);
    NextFact(at.site, bound + [Cleanup(ok)], Cancelled, OURS);
    NextFact(at.site, [], Cancelled, OURS);
    NextFact(at.site, [], NoChannel, OURS);
    assert [] + [Cancelled] == [Cancelled] && [] + [NoChannel] == [NoChannel];
  }

  lemma {:induction false} RoundsLegal(at: Place, s: Session, number: nat, w: J.Earth)
    requires Sound(at, w) && Safety.Shape(at.site, w.kernel, 0) && ProperSession(s)
    ensures var (r, facts, last) := Rounds(at, s, number, w);
      var end := Standings(at.site, facts, OURS);
      && Sound(at, last)
      && end.Legal? && end.marker && end.mine && (r.clean ==> end.stage == Idle)
    ensures number <= s.maxRestarts + 1 ==> Rounds(at, s, number, w).0.attempts <= s.maxRestarts + 1 - number
    decreases s.maxRestarts + 1 - number
  {
    hide OneRound, Judge, Standings, Sound, Safety.Shape;
    NoFacts(at.site, OURS);
    if number <= s.maxRestarts {
      RoundLegal(at, s, number, w);
      RoundCounts(at, s, number, w);
      var t := OneRound(at, s, number, w);
      if t.again {
        RoundsLegal(at, s, number + 1, t.w);
        StandingsAppend(at.site, t.facts, Rounds(at, s, number + 1, t.w).1, OURS);
      }
    }
  }

  lemma RoundCounts(at: Place, s: Session, number: nat, w: J.Earth)
    ensures var t := OneRound(at, s, number, w); t.r.attempts <= 1 && (t.again ==> t.r.clean)
  {
  }

  predicate Consistent(st: Standing) {
    st.Legal? && (!st.marker ==> st.stage == Idle) && (st.mine ==> st.marker)
  }

  lemma SessionLegal(at: Place, s: Session, start: Standing, w: J.Earth)
    requires Consistent(start) && Sound(at, w) && ProperSession(s)
    ensures var (r, facts, last) := RunSession(at, s, start.marker, w);
      && Sound(at, last)
      && Consistent(Standings(at.site, facts, start))
      && r.attempts <= s.maxRestarts + 1
      && (r.clean ==> !Standings(at.site, facts, start).marker)
  {
    hide Rounds, Standings, Sound, CleanUp, Safety.Shape, Idling;
    NoFacts(at.site, start);
    NextFact(at.site, [], RunBegins, start);
    assert [] + [RunBegins] == [RunBegins];
    if s.admitted && Idling(at, w) && !start.marker {
      NextFact(at.site, [RunBegins], MarkerSet, start);
      assert [RunBegins] + [MarkerSet] == [RunBegins, MarkerSet];
      var (w1, ok) := CleanUp(at, w, s.inTime);
      CleanUpSound(at, w, s.inTime);
      NextFact(at.site, [RunBegins, MarkerSet], Cleanup(ok), start);
      var opening := [RunBegins, MarkerSet] + [Cleanup(ok)];
      assert opening == [RunBegins, MarkerSet, Cleanup(ok)];
      if s.markerDurable && ok {
        var (r, facts, w2) := Rounds(at, s, 0, w1);
        RoundsLegal(at, s, 0, w1);
        var last := Close(s, r).1;
        StandingsAppend(at.site, opening, facts, start);
        StandingsAppend(at.site, opening + facts, last, start);
        NoFacts(at.site, Standings(at.site, opening + facts, start));
        NextFact(at.site, opening + facts, MarkerCleared, start);
      }
    }
  }

  // ---- the verdict, told from what was observed ----

  /** What is seen of one attempt. */
  datatype Seen = Seen(launched: bool, ready: bool, code: Option<int>, clean: bool)

  /** One more observation: a factory call opens an attempt, the rest is about it. */
  function Watch(seen: seq<Seen>, f: Fact): seq<Seen> {
    if f.FactoryCalled? then seen + [Seen(false, false, None, false)]
    else if seen == [] then seen
    else
      var n := |seen| - 1;
      match f
      case Launched(_) => seen[n := seen[n].(launched := true)]
      case Readied => seen[n := seen[n].(ready := true)]
      case Reaped(code) => seen[n := seen[n].(code := Some(code))]
      case Cleanup(ok) => seen[n := seen[n].(clean := ok)]
      case _ => seen
  }

  function Observe(seen: seq<Seen>, facts: seq<Fact>): seq<Seen>
    decreases |facts|
  {
    if facts == [] then seen else Observe(Watch(seen, facts[0]), facts[1..])
  }

  /** The worker did what it was started for: ready, and exit code 0. */
  predicate Finished(a: Seen) {
    a.ready && a.code == Some(0)
  }

  lemma {:induction false} ObserveAppend(seen: seq<Seen>, a: seq<Fact>, b: seq<Fact>)
    ensures Observe(seen, a + b) == Observe(Observe(seen, a), b)
    decreases |a|
  {
    if a == [] {
      assert a + b == b;
    } else {
      assert (a + b)[1..] == a[1..] + b;
      ObserveAppend(Watch(seen, a[0]), a[1..], b);
    }
  }

  /** Facts that begin with an attempt of their own say nothing of earlier ones. */
  predicate Opening(facts: seq<Fact>)
    decreases |facts|
  {
    facts == [] || facts[0].FactoryCalled? || (facts[0] in {Cancelled, NoChannel, MarkerCleared, RunBegins, MarkerSet} && Opening(facts[1..]))
  }

  lemma {:induction false} ObserveLater(before: seq<Seen>, seen: seq<Seen>, facts: seq<Fact>)
    requires seen != []
    ensures Observe(before + seen, facts) == before + Observe(seen, facts)
    decreases |facts|
  {
    if facts != [] {
      assert Watch(before + seen, facts[0]) == before + Watch(seen, facts[0]);
      ObserveLater(before, Watch(seen, facts[0]), facts[1..]);
    }
  }

  lemma {:induction false} ObserveOpening(before: seq<Seen>, facts: seq<Fact>)
    requires Opening(facts)
    ensures Observe(before, facts) == before + Observe([], facts)
    decreases |facts|
  {
    if facts == [] {
      assert before + [] == before;
    } else if facts[0].FactoryCalled? {
      var unseen := [Seen(false, false, None, false)];
      assert [] + unseen == unseen;
      ObserveLater(before, unseen, facts[1..]);
    } else {
      ObserveOpening(before, facts[1..]);
    }
  }

  lemma ObserveOne(seen: seq<Seen>, f: Fact)
    ensures Observe(seen, [f]) == Watch(seen, f) && Observe(seen, []) == seen
  {
    assert [f][1..] == [];
    assert Observe(Watch(seen, f), []) == Watch(seen, f);
  }

  lemma ObserveNext(seen: seq<Seen>, facts: seq<Fact>, f: Fact)
    ensures Observe(seen, facts + [f]) == Watch(Observe(seen, facts), f)
  {
    ObserveAppend(seen, facts, [f]);
    ObserveOne(Observe(seen, facts), f);
  }

  lemma AttemptSeen(c: Chances, w: J.Earth)
    ensures var o := RunAttempt(c);
      && Observe([], AttemptFacts(o, w)) == [Seen(o.launched, o.attempt.ready, if o.attempt.exitObserved then Some(o.attempt.exitCode) else None, false)]
      && AttemptFacts(o, w) != [] && AttemptFacts(o, w)[0].FactoryCalled?
      && Opening(AttemptFacts(o, w)) && Cancelled !in AttemptFacts(o, w) && NoChannel !in AttemptFacts(o, w)
  {
    hide Observe;
    var o := RunAttempt(c);
    AttemptIsHonest(c);
    ObserveOne([], FactoryCalled);
    assert [] + [Seen(false, false, None, false)] == [Seen(false, false, None, false)];
    var a := if o.launched then [Launched(w)] else [];
    var b := if o.launched && o.attempt.ready then [Readied] else [];
    if o.launched { ObserveNext([], [FactoryCalled], Launched(w)); }
    assert [FactoryCalled] + [] == [FactoryCalled];
    var first := [FactoryCalled] + a;
    if o.launched && o.attempt.ready { ObserveNext([], first, Readied); }
    assert first + [] == first;
    var second := first + b;
    if o.launched && o.attempt.exitObserved { ObserveNext([], second, Reaped(o.attempt.exitCode)); }
    assert second + [] == second;
  }

  /** An attempt that begins finds the context alive and gets a channel; one that
      ends clean had its broker drained, its binding unchanged and its cleanup in
      time; one that ends clean and cancelled is the last. */
  predicate HeedsAt(s: Session, number: nat, seen: seq<Seen>, facts: seq<Fact>, k: nat)
    requires k < |seen|
  {
    var round := s.rounds(number + k);
    && !round.cancelledBefore && round.socketpair
    && (seen[k].clean && round.cancelledAfter ==> Cancelled in facts && k == |seen| - 1)
    && (seen[k].clean ==> round.binding == Some(s.binding) && round.inTime && (RunAttempt(round.chances).served ==> round.drained))
  }

  predicate Heeds(s: Session, number: nat, seen: seq<Seen>, facts: seq<Fact>) {
    forall k :: 0 <= k < |seen| ==> HeedsAt(s, number, seen, facts, k)
  }

  /** A turn that comes to be clean met no obstacle on the way. */
  lemma RoundHeeds(at: Place, s: Session, number: nat, w: J.Earth, seen: seq<Seen>)
    requires var t := OneRound(at, s, number, w);
      |seen| == t.r.attempts <= 1 && (seen != [] ==> (t.r.clean <==> seen[0].clean))
    ensures Heeds(s, number, seen, OneRound(at, s, number, w).facts)
  {
    hide RunAttempt, AttemptFacts, RegistryOf, CleanUp, Worked, B.CleanGate;
    var round := s.rounds(number);
    var w1 := if RunAttempt(round.chances).launched then Worked(at, w, round.work) else w;
    CleanUpInTime(at, w1, round.inTime);
    var facts := OneRound(at, s, number, w).facts;
    forall k | 0 <= k < |seen| ensures HeedsAt(s, number, seen, facts, k) {
      assert k == 0 && s.rounds(number + k) == round;
    }
  }

  /** What one turn of the loop decides, from what it saw. */
  lemma RoundVerdict(at: Place, s: Session, number: nat, w: J.Earth)
    requires number <= s.maxRestarts
    ensures var t := OneRound(at, s, number, w);
      var seen := Observe([], t.facts);
      && Opening(t.facts) && |seen| == t.r.attempts <= 1
      && (t.r.clean <==> seen == [] || seen[0].clean)
      && (t.again <==> seen != [] && seen[0].clean && !Finished(seen[0]) && Cancelled !in t.facts && number < s.maxRestarts)
      && (t.r.verdict == Completed <==> seen != [] && seen[0].clean && Finished(seen[0]) && Cancelled !in t.facts)
      && (t.r.verdict == Stopped <==> Cancelled in t.facts)
      && (t.r.verdict == Exhausted <==>
            seen != [] && seen[0].clean && !Finished(seen[0]) && Cancelled !in t.facts && number == s.maxRestarts)
      && (seen == [] ==> Cancelled in t.facts || NoChannel in t.facts)
      && (t.again ==> NoChannel !in t.facts)
      && (t.r.verdict != Blocked ==> t.r.clean)
      && Heeds(s, number, seen, t.facts)
  {
    hide RunAttempt, AttemptFacts, RegistryOf, CleanUp, Worked, B.CleanGate, Observe, Opening, HeedsAt;
    var round := s.rounds(number);
    var o := RunAttempt(round.chances);
    PassiveOpening(Cancelled);
    PassiveOpening(NoChannel);
    ObserveOne([], Cancelled);
    ObserveOne([], NoChannel);
    AttemptSeen(round.chances, w);
    var facts := AttemptFacts(o, w);
    var (tally, started) := RegistryOf(at, o, round.packets);
    var counted := facts + [Registry(tally, started)];
    ObserveNext([], facts, Registry(tally, started));
    var bound := counted + [Binding(s.binding, round.binding)];
    ObserveNext([], counted, Binding(s.binding, round.binding));
    var w1 := if o.launched then Worked(at, w, round.work) else w;
    var settled := bound + [Cleanup(CleanUp(at, w1, round.inTime).1)];
    ObserveNext([], bound, Cleanup(CleanUp(at, w1, round.inTime).1));
    ObserveNext([], settled, Cancelled);
    OpeningStays(facts, [Registry(tally, started)]);
    OpeningStays(counted, [Binding(s.binding, round.binding)]);
    OpeningStays(bound, [Cleanup(CleanUp(at, w1, round.inTime).1)]);
    OpeningStays(settled, [Cancelled]);
    RoundHeeds(at, s, number, w, Observe([], OneRound(at, s, number, w).facts));
  }

  lemma CleanUpInTime(at: Place, w: J.Earth, inTime: bool)
    ensures CleanUp(at, w, inTime).1 ==> inTime
  {
    hide Runs.Cleanup;
  }

  lemma PassiveOpening(f: Fact)
    requires f in {Cancelled, NoChannel, MarkerCleared}
    ensures Opening([f]) && Opening([])
  {
    assert [f][1..] == [];
  }

  lemma OpeningStays(a: seq<Fact>, b: seq<Fact>)
    requires a != [] && a[0].FactoryCalled?
    ensures Opening(a + b) && (a + b)[0].FactoryCalled?
  {
  }

  /** Both begin with observations of their own. */
  lemma {:induction false} OpeningAppend(a: seq<Fact>, b: seq<Fact>)
    requires Opening(a) && Opening(b)
    ensures Opening(a + b)
    decreases |a|
  {
    if a == [] {
      assert a + b == b;
    } else if !a[0].FactoryCalled? {
      assert (a + b)[1..] == a[1..] + b;
      OpeningAppend(a[1..], b);
    }
  }

  /** Restarts follow clean, unfinished attempts only, and each of those. */
  predicate Restarts(seen: seq<Seen>) {
    forall k :: 0 <= k < |seen| - 1 ==> seen[k].clean && !Finished(seen[k])
  }

  /** The last attempt was clean and left its work undone. */
  predicate Unfinished(seen: seq<Seen>) {
    seen == [] || (seen[|seen| - 1].clean && !Finished(seen[|seen| - 1]))
  }

  predicate Accomplished(seen: seq<Seen>) {
    seen != [] && seen[|seen| - 1].clean && Finished(seen[|seen| - 1])
  }

  lemma {:induction false} RoundsVerdict(at: Place, s: Session, number: nat, w: J.Earth)
    requires number <= s.maxRestarts
    ensures var (r, facts, _) := Rounds(at, s, number, w);
      var seen := Observe([], facts);
      && Opening(facts) && |seen| == r.attempts && number + |seen| <= s.maxRestarts + 1
      && Restarts(seen)
      && (r.clean <==> Unfinished(seen) || Accomplished(seen))
      && (r.verdict == Completed <==> Accomplished(seen) && Cancelled !in facts)
      && (r.verdict == Stopped <==> Cancelled in facts)
      && (r.verdict == Exhausted <==> Unfinished(seen) && number + |seen| == s.maxRestarts + 1 && Cancelled !in facts)
      && (Unfinished(seen) && number + |seen| <= s.maxRestarts ==> Cancelled in facts || NoChannel in facts)
      && (r.verdict != Blocked ==> r.clean)
      && Heeds(s, number, seen, facts)
    decreases s.maxRestarts + 1 - number
  {
    hide OneRound, Observe, Opening;
    RoundVerdict(at, s, number, w);
    var t := OneRound(at, s, number, w);
    if t.again {
      RoundsVerdict(at, s, number + 1, t.w);
      var (rest, more, _) := Rounds(at, s, number + 1, t.w);
      ObserveAppend([], t.facts, more);
      ObserveOpening(Observe([], t.facts), more);
      OpeningAppend(t.facts, more);
      var seen := Observe([], t.facts) + Observe([], more);
      assert Observe([], t.facts + more) == seen;
      assert Restarts(seen);
      HeedsNext(s, number, Observe([], t.facts), t.facts, Observe([], more), more);
    }
  }

  lemma HeedsNext(s: Session, number: nat, first: seq<Seen>, facts: seq<Fact>, rest: seq<Seen>, more: seq<Fact>)
    requires |first| == 1 && Heeds(s, number, first, facts) && Heeds(s, number + 1, rest, more)
    requires first[0].clean ==> Cancelled !in facts
    ensures Heeds(s, number, first + rest, facts + more)
  {
    var seen := first + rest;
    forall k | 0 <= k < |seen| ensures HeedsAt(s, number, seen, facts + more, k) {
      if k == 0 {
        assert HeedsAt(s, number, first, facts, 0);
      } else {
        assert HeedsAt(s, number + 1, rest, more, k - 1);
        assert number + k == number + 1 + (k - 1);
      }
    }
  }

  lemma HeedsMore(s: Session, number: nat, seen: seq<Seen>, facts: seq<Fact>, all: seq<Fact>)
    requires Heeds(s, number, seen, facts) && (Cancelled in facts ==> Cancelled in all)
    ensures Heeds(s, number, seen, all)
  {
    assert forall k :: 0 <= k < |seen| && HeedsAt(s, number, seen, facts, k) ==> HeedsAt(s, number, seen, all, k);
  }

  /** Of every launcher run, from what it observed: it reports completion exactly if
      its last worker was ready, exited with 0 and left everything clean; a stop
      exactly if it found itself cancelled; exhaustion exactly after MaxRestarts + 1
      clean but unfinished attempts; and it starts another attempt after exactly
      those, as long as it can. Each verdict needs the marker to be removed for good. */
  lemma VerdictExactly(at: Place, s: Session, marker: bool, w: J.Earth)
    ensures var (r, facts, _) := RunSession(at, s, marker, w);
      var seen := Observe([], facts);
      && |seen| == r.attempts <= s.maxRestarts + 1 && Restarts(seen) && Heeds(s, 0, seen, facts)
      && (r.verdict == Completed <==> s.clearing.Cleared? && Accomplished(seen) && Cancelled !in facts)
      && (r.verdict == Stopped <==> s.clearing.Cleared? && Cancelled in facts)
      && (r.verdict == Exhausted <==>
            s.clearing.Cleared? && Unfinished(seen) && |seen| == s.maxRestarts + 1 && Cancelled !in facts)
      && (FactoryCalled in facts && Unfinished(seen) && |seen| <= s.maxRestarts ==> Cancelled in facts || NoChannel in facts)
      && (r.clean <==> s.clearing.Cleared? && Cleanup(true) in facts && (Unfinished(seen) || Accomplished(seen)))
  {
    hide Rounds, CleanUp, Idling, Observe, Opening;
    assert Heeds(s, 0, [], [RunBegins]);
    ObserveOne([], RunBegins);
    ObserveNext([], [RunBegins], MarkerSet);
    assert [RunBegins] + [MarkerSet] == [RunBegins, MarkerSet];
    if s.admitted && Idling(at, w) && !marker && s.markerDurable {
      var (w1, ok) := CleanUp(at, w, s.inTime);
      var opening := [RunBegins, MarkerSet, Cleanup(ok)];
      ObserveNext([], [RunBegins, MarkerSet], Cleanup(ok));
      assert [RunBegins, MarkerSet] + [Cleanup(ok)] == opening;
      if ok {
        RoundsVerdict(at, s, 0, w1);
        var (r, facts, w2) := Rounds(at, s, 0, w1);
        var last := Close(s, r).1;
        ObserveAppend([], opening, facts);
        ObserveAppend([], opening + facts, last);
        ObserveOne(Observe([], facts), MarkerCleared);
        assert Cleanup(true) in opening;
        HeedsMore(s, 0, Observe([], facts), facts, opening + facts + last);
      }
    }
  }

  /** One launcher run, the point at which it was killed, if it was, and what was
      still done with the journal after that. */
  datatype Life = Life(session: Session, cut: nat, survived: seq<J.Event>)

  function LifeFacts(at: Place, l: Life, marker: bool, w: J.Earth): (seq<Fact>, J.Earth) {
    var (_, facts, last) := RunSession(at, l.session, marker, w);
    if l.cut < |facts| then (facts[..l.cut], Worked(at, w, l.survived)) else (facts, last)
  }

  /** The whole history: each run finds the marker and the world as it was left. */
  ghost function History(at: Place, lives: seq<Life>, h: seq<Fact>, w: J.Earth): seq<Fact>
    decreases |lives|
  {
    if lives == [] then h
    else
      var now := Standings(at.site, h, NOTHING_YET);
      var (facts, next) := LifeFacts(at, lives[0], now.Legal? && now.marker, w);
      History(at, lives[1..], h + facts, next)
  }

  ghost predicate Orderly(site: Site, h: seq<Fact>) {
    Consistent(Standings(site, h, NOTHING_YET))
  }

  lemma LifeOrderly(at: Place, l: Life, h: seq<Fact>, w: J.Earth)
    requires Orderly(at.site, h) && Sound(at, w) && ProperSession(l.session)
    ensures var (facts, next) := LifeFacts(at, l, Standings(at.site, h, NOTHING_YET).marker, w);
      Orderly(at.site, h + facts) && Sound(at, next)
  {
    hide Judge, RunSession, Sound, Standings, Worked;
    var now := Standings(at.site, h, NOTHING_YET);
    var facts := RunSession(at, l.session, now.marker, w).1;
    SessionLegal(at, l.session, now, w);
    WorkedSound(at, w, l.survived);
    StandingsAppend(at.site, h, LifeFacts(at, l, now.marker, w).0, NOTHING_YET);
    if l.cut < |facts| {
      PrefixLegal(at.site, facts, l.cut, now);
      MarkerGuards(at.site, facts[..l.cut], now);
    }
  }

  /** Without a marker no stage but Idle is reachable. */
  lemma {:induction false} MarkerGuards(site: Site, h: seq<Fact>, start: Standing)
    requires Consistent(start)
    ensures Standings(site, h, start).Legal? ==> Consistent(Standings(site, h, start))
    decreases |h|
  {
    if h != [] {
      hide Safety.Shape, AllGone, B.CleanGate;
      var next := Judge(site, start, h[0]);
      if next.Legal? { MarkerGuards(site, h[1..], next); } else { IllegalStays(site, h[1..]); }
    }
  }

  ghost predicate ProperLives(lives: seq<Life>) {
    forall k :: 0 <= k < |lives| ==> ProperSession(lives[k].session)
  }

  /** Over any number of launcher runs, each killed anywhere or nowhere, with
      workers that do anything with their journal and any packets sent to the
      broker, the history stays legal: no factory call, launch or cleanup
      without a marker of the run's own, no launch on a kernel that still holds a
      planned resource, and none after a worker that was not reaped, a gate that
      was not clean, a binding that changed or a cleanup that failed. */
  lemma {:induction false} EveryHistoryOrderly(at: Place, lives: seq<Life>, h: seq<Fact>, w: J.Earth)
    requires Orderly(at.site, h) && Sound(at, w) && ProperLives(lives)
    ensures Orderly(at.site, History(at, lives, h, w))
    decreases |lives|
  {
    hide LifeFacts, Standings, Sound, ProperSession;
    if lives != [] {
      var marker := Standings(at.site, h, NOTHING_YET).marker;
      LifeOrderly(at, lives[0], h, w);
      var (facts, next) := LifeFacts(at, lives[0], marker, w);
      assert forall k :: 0 <= k < |lives[1..]| ==> lives[1..][k] == lives[k + 1];
      EveryHistoryOrderly(at, lives[1..], h + facts, next);
    }
  }

  // ---- what lies between two launches ----

  predicate ReapedAt(h: seq<Fact>, k: nat) {
    k < |h| && h[k].Reaped?
  }

  ghost predicate GatedAt(h: seq<Fact>, k: nat) {
    k < |h| && h[k].Registry? && B.CleanGate(h[k].tally) && AllGone(h[k].started)
  }

  predicate BoundAt(h: seq<Fact>, k: nat) {
    k < |h| && h[k].Binding? && h[k].current == Some(h[k].expected)
  }

  predicate CleanedAt(h: seq<Fact>, k: nat) {
    k < |h| && h[k] == Cleanup(true)
  }

  ghost predicate FourSteps(h: seq<Fact>, i: nat, j: nat, a: nat, b: nat, c: nat, d: nat) {
    i < a < b < c < d < j && ReapedAt(h, a) && GatedAt(h, b) && BoundAt(h, c) && CleanedAt(h, d)
  }

  /** How far the worker launched at i has got after j facts; a, b, c and d are
      the positions of its four facts as far as they exist. */
  ghost predicate Progress(h: seq<Fact>, i: nat, j: nat, stage: Stage, a: nat, b: nat, c: nat, d: nat) {
    || FourSteps(h, i, j, a, b, c, d)
    || stage == Live || stage == Stuck
    || (stage == Exited && i < a < j && ReapedAt(h, a))
    || (stage == Gated && i < a < b < j && ReapedAt(h, a) && GatedAt(h, b))
    || (stage == Bound && i < a < b < c < j && ReapedAt(h, a) && GatedAt(h, b) && BoundAt(h, c))
  }

  lemma {:induction false} StageProgress(site: Site, h: seq<Fact>, i: nat, j: nat) returns (a: nat, b: nat, c: nat, d: nat)
    requires i < j <= |h| && h[i].Launched?
    requires Standings(site, h[..j], NOTHING_YET).Legal?
    ensures Progress(h, i, j, Standings(site, h[..j], NOTHING_YET).stage, a, b, c, d)
    decreases j
  {
    hide Standings, Safety.Shape, AllGone, B.CleanGate;
    var last := h[j - 1];
    assert h[..j] == h[..j - 1] + [last];
    NextFact(site, h[..j - 1], last, NOTHING_YET);
    var before := Standings(site, h[..j - 1], NOTHING_YET);
    a, b, c, d := 0, 0, 0, 0;
    if i < j - 1 {
      a, b, c, d := StageProgress(site, h, i, j - 1);
      if !FourSteps(h, i, j, a, b, c, d) {
        if before.stage == Live && last.Reaped? { a := j - 1; }
        if before.stage == Exited && last.Registry? { b := j - 1; }
        if before.stage == Gated && last.Binding? { c := j - 1; }
        if before.stage == Bound && last.Cleanup? { d := j - 1; }
      }
    }
  }

  lemma IdleProgress(h: seq<Fact>, i: nat, j: nat, a: nat, b: nat, c: nat, d: nat)
    requires Progress(h, i, j, Idle, a, b, c, d)
    ensures FourSteps(h, i, j, a, b, c, d)
  {
  }

  /** Each fact of a history was legal where it stands. */
  lemma FactLegal(site: Site, h: seq<Fact>, j: nat)
    requires Orderly(site, h) && j < |h|
    ensures var before := Standings(site, h[..j], NOTHING_YET);
      Consistent(before) && Judge(site, before, h[j]).Legal?
  {
    hide Judge, Standings;
    PrefixLegal(site, h, j, NOTHING_YET);
    PrefixLegal(site, h, j + 1, NOTHING_YET);
    assert h[..j + 1] == h[..j] + [h[j]];
    NextFact(site, h[..j], h[j], NOTHING_YET);
    MarkerGuards(site, h[..j], NOTHING_YET);
  }

  lemma HistoryStep(at: Place, lives: seq<Life>, w: J.Earth, j: nat)
    requires Sound(at, w) && ProperLives(lives) && j < |History(at, lives, [], w)|
    ensures var h := History(at, lives, [], w);
      var before := Standings(at.site, h[..j], NOTHING_YET);
      Consistent(before) && Judge(at.site, before, h[j]).Legal?
  {
    hide Judge, Standings, Sound, ProperLives, History;
    NoFacts(at.site, NOTHING_YET);
    EveryHistoryOrderly(at, lives, [], w);
    FactLegal(at.site, History(at, lives, [], w), j);
  }

  lemma LaunchJudged(site: Site, before: Standing, w: J.Earth)
    requires Consistent(before) && Judge(site, before, Launched(w)).Legal?
    ensures before == OURS && Safety.Shape(site, w.kernel, 0)
  {
  }

  /** A worker is launched only after every earlier one was reaped, its broker's
      gate was clean and all processes of all its commands gone for good, the
      binding was the one the run began with, and the cleanup had succeeded; only
      behind the run's own durable marker; and only on a kernel that holds none
      of the planned resources. */
  lemma LaunchesAreSeparated(at: Place, lives: seq<Life>, w: J.Earth, i: nat, j: nat)
    requires Sound(at, w) && ProperLives(lives)
    requires var h := History(at, lives, [], w); i < j < |h| && h[i].Launched? && h[j].Launched?
    ensures var h := History(at, lives, [], w);
      && (exists a, b, c, d :: FourSteps(h, i, j, a, b, c, d))
      && Standings(at.site, h[..j], NOTHING_YET) == OURS
      && Safety.Shape(at.site, h[j].w.kernel, 0)
  {
    var h := History(at, lives, [], w);
    HistoryStep(at, lives, w, j);
    LaunchJudged(at.site, Standings(at.site, h[..j], NOTHING_YET), h[j].w);
    hide History, Standings, Safety.Shape, Progress, FourSteps, Sound, ProperLives, Judge, Consistent;
    var a, b, c, d := StageProgress(at.site, h, i, j);
    IdleProgress(h, i, j, a, b, c, d);
  }

  /** A marker set at m, and neither another run nor a removal since. */
  predicate OwnMarker(h: seq<Fact>, m: nat, j: nat) {
    m < j <= |h| && h[m] == MarkerSet && forall k :: m < k < j ==> h[k] != RunBegins && h[k] != MarkerCleared
  }

  lemma {:induction false} MineMeansSet(site: Site, h: seq<Fact>, j: nat) returns (m: nat)
    requires j <= |h| && Standings(site, h[..j], NOTHING_YET).Legal? && Standings(site, h[..j], NOTHING_YET).mine
    ensures OwnMarker(h, m, j)
    decreases j
  {
    hide Standings, Safety.Shape, AllGone, B.CleanGate;
    NoFacts(site, NOTHING_YET);
    assert h[..0] == [];
    assert j != 0;
    var last := h[j - 1];
    assert h[..j] == h[..j - 1] + [last];
    NextFact(site, h[..j - 1], last, NOTHING_YET);
    if last == MarkerSet { m := j - 1; } else { m := MineMeansSet(site, h, j - 1); }
  }

  /** The factory is called only by a run that set the marker itself: a run that
      finds an unresolved marker calls nothing. */
  lemma FactoryNeedsOwnMarker(at: Place, lives: seq<Life>, w: J.Earth, j: nat)
    requires Sound(at, w) && ProperLives(lives)
    requires var h := History(at, lives, [], w); j < |h| && h[j] == FactoryCalled
    ensures exists m :: OwnMarker(History(at, lives, [], w), m, j)
  {
    var h := History(at, lives, [], w);
    HistoryStep(at, lives, w, j);
    hide History, Standings;
    var m := MineMeansSet(at.site, h, j);
  }

  /** An unresolved marker: the run touches nothing. */
  /** A run goes as far as its marker only if nobody else's is there and the journal
      opens with nothing owned and nothing pending. */
  lemma SessionNeedsIdle(at: Place, s: Session, marker: bool, w: J.Earth)
    ensures MarkerSet in RunSession(at, s, marker, w).1 ==>
      && s.admitted && !marker && J.Open(at.site, w.disk).Some?
      && J.Open(at.site, w.disk).value.owned == 0 && J.Open(at.site, w.disk).value.pending == ""
  {
    hide Rounds, CleanUp, J.Open;
  }

  lemma UnresolvedMarkerBlocks(at: Place, s: Session, w: J.Earth)
    ensures RunSession(at, s, true, w) == (REFUSED, [RunBegins], w)
  {
  }

  /** The worker went by itself. */
  predicate OwnExit(c: Chances) {
    c.ending.ExitBeforeReady? || c.ending.ReadyThenExit? || c.exitedByThen
  }

  /** `Exit observed` is never claimed for a process that was not reaped, and a
      launch that failed left no process. */
  lemma AttemptIsHonest(c: Chances)
    ensures var o := RunAttempt(c);
      && (o.attempt.reason == LaunchFailed <==> !o.launched)
      && (o.launched <==> c.factory.ReturnsStarted? || (c.factory.ReturnsUnstarted? && c.pipe && c.start))
      && (o.served <==> c.factory.ReturnsUnstarted? && c.pipe && c.start && c.pidfd && c.brokerPinned)
      && (!o.served && o.attempt.exitObserved ==> c.reapedAfterKill)
      && (o.served ==> o.launched)
      && (o.attempt.exitObserved ==> o.launched)
      && (o.attempt.killRequested ==> o.attempt.termRequested)
      && (o.attempt.ready ==> o.served)
      && (o.served ==> (o.attempt.ready <==> Ready(c.ending)))
      && (o.served && o.attempt.exitObserved ==> o.attempt.exitCode == c.exitCode)
      && (!o.served ==> o.attempt.exitCode == -1)
      && (o.served ==>
           (o.attempt.exitObserved <==>
             OwnExit(c) || (c.termSent && c.exitsInGrace) || (c.termSent && c.killSent && c.exitsInWait)))
      && (o.attempt.termRequested <==> o.served && !OwnExit(c))
      && (o.attempt.killRequested <==> o.served && !OwnExit(c) && c.termSent && !c.exitsInGrace)
  {
  }
}
