/** journal.go and journal_linux.go as functions of an adversary.

    Every primitive the controller performs (a command, an observation, a save)
    reads its outcome from a tape: it may succeed, fail with or without its
    effect, or be the point where the process dies, with or without its effect.
    Statements over all tapes are statements over all failures and crashes. */
module Journal {
  import opened Text
  import opened Plan
  import opened Observation
  import opened Resources
  import opened Scoped
  import opened KernelState
  import opened Tools
  import opened PlanMeaning

  datatype HexDigest = Empty | Malformed | Sha(digest: Digest)

  datatype Record = Record(
    version: nat,
    ns: string,
    boot: string,
    plan: DestinationPlan,
    owned: int,
    pending: string,
    snapshot: HexDigest,
    proof: HexDigest)

  /** `decodeJournalMode`, on the decoded fields; None is any of its errors. */
  function Decode(site: Site, r: Record): Option<Record> {
    if !ValidPlan(site.plan) then None
    else if !(if site.scoped then r.version == 3 else r.version == 1 || r.version == 2)
            || r.ns != site.ns || r.boot != site.boot || r.plan != site.plan || r.owned < 0 || r.owned > PLAN_LENGTH
    then None
    else if r.pending != "" && r.pending != "add" && r.pending != "remove" then None
    else if (r.pending == "add" && r.owned == PLAN_LENGTH) || (r.pending == "remove" && r.owned == 0) then None
    else if !r.snapshot.Sha? then None
    else if r.proof != Empty && (!r.proof.Sha? || (r.version != 2 && r.version != 3) || r.pending == "") then None
    else Some(r)
  }

  datatype Verdict = Succeed | Fail(effect: bool) | Crash(effect: bool)

  /** One outcome: the foreign lines as they are by now, how the primitive ends,
      and how and where the kernel prints a step's line if it adds one. */
  datatype Choice = Choice(foreign: seq<seq<string>>, verdict: Verdict, prints: nat -> string, pos: nat)

  type Tape = nat -> Choice

  datatype Issue = Issue(intent: string, index: int)

  /** What survives the process: the kernel, the journal file, and the history
      of the commands issued. */
  datatype World = World(kernel: Kernel, disk: Option<Record>, issued: seq<Issue>, clock: nat)

  type Earth = w: World | |w.kernel.lines| == 3 witness World(Kernel([[], [], []], {}), None, [], 0)

  datatype Exit = Done | Failed | Crashed

  datatype Try<+T> = Got(value: T) | Bad | Dead {
    function Leave(): Exit {
      match this case Got(_) => Done case Bad => Failed case Dead => Crashed
    }
  }

  // ---- primitives ----

  /** Time passes. In scoped mode other writers may meanwhile have changed
      anything outside the reserved footprint; a strict namespace is exclusive. */
  function Tick(site: Site, tape: Tape, w: Earth): Earth {
    var c := tape(w.clock);
    var lines := if site.scoped && Printed(c.foreign) && SameClaims(site.plan, w.kernel.lines, c.foreign)
                 then c.foreign else w.kernel.lines;
    w.(kernel := w.kernel.(lines := lines), clock := w.clock + 1)
  }

  /** `save`: the record replaces the file by one rename. */
  function Save(site: Site, tape: Tape, w: Earth, r: Record): (Earth, Exit) {
    var next := Tick(site, tape, w);
    match tape(w.clock).verdict
    case Succeed => (next.(disk := Some(r)), Done)
    case Fail(effect) => (if effect then next.(disk := Some(r)) else next, Failed)
    case Crash(effect) => (if effect then next.(disk := Some(r)) else next, Crashed)
  }

  /** Whether the kernel performs the step's command line: it is not refused, and a
      thing it adds is printed in a recognised form. */
  predicate Possible(site: Site, k: Kernel, intent: string, index: int, line: string)
    requires |k.lines| == 3
  {
    && 0 <= index < 8 && (intent == "add" ==> Renders(site, index, line))
    && Execute(site.marks, k, CommandOf(site.plan, intent, index), line, 0).Some?
  }

  /** The command line at work. */
  function Effect(site: Site, k: Kernel, intent: string, index: int, line: string, pos: nat): (r: Kernel)
    requires |k.lines| == 3 && 0 <= index < 8
    ensures |r.lines| == 3
  {
    var done := Execute(site.marks, k, CommandOf(site.plan, intent, index), line, pos);
    if done.Some? then done.value else k
  }

  /** One planned command. */
  function Run(site: Site, tape: Tape, w: Earth, intent: string, index: int): (Earth, Exit) {
    var c := tape(w.clock);
    var asked := Tick(site, tape, w).(issued := w.issued + [Issue(intent, index)]);
    var line := if 0 <= index then c.prints(index) else "";
    var possible := Possible(site, asked.kernel, intent, index, line);
    var acts := possible && (c.verdict.Succeed? || c.verdict.effect);
    var next := if acts then asked.(kernel := Effect(site, asked.kernel, intent, index, line, c.pos)) else asked;
    (next, if c.verdict.Crash? then Crashed else if c.verdict.Succeed? && possible then Done else Failed)
  }

  /** The three listing commands (and the exact checks that follow them). */
  function Capture(site: Site, tape: Tape, w: Earth): (Earth, Try<seq<string>>) {
    var next := Tick(site, tape, w);
    (next, match tape(w.clock).verdict
           case Succeed => Got(Listing(next.kernel.lines))
           case Fail(_) => Bad
           case Crash(_) => Dead)
  }

  /** The second pass over the footprint counts if it agrees with the first. */
  function Confirmed(previous: ScopedWitness, current: Result<ScopedWitness>): Try<ScopedWitness> {
    if current.Err? || current.value.digest != previous.digest then Bad else Got(current.value)
  }

  /** What was classified counts if it is printed once more. */
  function Repeated(found: ResourceWitness, after: seq<string>): Try<ResourceWitness> {
    if Texts(after) != found.whole then Bad else Got(found)
  }

  /** `observeScopedWith`: two complete observations that agree. */
  function ObserveScoped(site: Site, tape: Tape, w: Earth): (Earth, Try<ScopedWitness>) {
    var (w1, first) := Capture(site, tape, w);
    if !first.Got? then (w1, if first.Bad? then Bad else Dead)
    else
      var previous := ClassifyScoped(site.plan, ContextOf(site, w1.kernel), first.value);
      if previous.Err? then (w1, Bad)
      else
        var (w2, second) := Capture(site, tape, w1);
        if !second.Got? then (w2, if second.Bad? then Bad else Dead)
        else (w2, Confirmed(previous.value, ClassifyScoped(site.plan, ContextOf(site, w2.kernel), second.value)))
  }

  /** `observeResources`: classify, then look again for changes. */
  function ObserveResources(site: Site, tape: Tape, w: Earth): (Earth, Try<ResourceWitness>) {
    var (w1, first) := Capture(site, tape, w);
    if !first.Got? then (w1, if first.Bad? then Bad else Dead)
    else
      var found := ClassifyResources(site.plan, ContextOf(site, w1.kernel), first.value);
      if found.Err? then (w1, Bad)
      else
        var (w2, after) := Capture(site, tape, w1);
        if !after.Got? then (w2, if after.Bad? then Bad else Dead)
        else (w2, Repeated(found.value, after.value))
  }

  /** `snapshot` */
  function Snapshot(site: Site, tape: Tape, w: Earth, owned: int): (Earth, Try<Digest>) {
    if site.scoped then
      var (w1, seen) := ObserveScoped(site, tape, w);
      (w1, match seen
           case Got(s) => if CountsMatch(s.counts, owned) then Got(s.digest) else Bad
           case Bad => Bad
           case Dead => Dead)
    else
      var (w1, seen) := Capture(site, tape, w);
      (w1, match seen case Got(outputs) => Got(Texts(outputs)) case Bad => Bad case Dead => Dead)
  }

  /** `witness` */
  function Witness(site: Site, tape: Tape, w: Earth, index: int): (Earth, Try<ResourceWitness>) {
    if site.scoped then
      var (w1, seen) := ObserveScoped(site, tape, w);
      (w1, match seen
           case Got(s) => Got(ResourceWitness(s.counts, s.digest, Excluding(s.resources, index)))
           case Bad => Bad
           case Dead => Dead)
    else ObserveResources(site, tape, w)
  }

  // ---- the controller ----

  datatype State = State(w: Earth, r: Record)

  /** `check`, for a controller that is not closed. */
  function Check(site: Site, tape: Tape, s: State): (Earth, Exit) {
    if s.r.pending != "" then (s.w, Failed)
    else
      var (w, seen) := Snapshot(site, tape, s.w, s.r.owned);
      if !seen.Got? then (w, seen.Leave())
      else if s.r.snapshot != Empty && Sha(seen.value) != s.r.snapshot then (w, Failed)
      else (w, Done)
  }

  function IndexOf(intent: string, owned: int): int {
    if intent == "remove" then owned - 1 else owned
  }

  function After(intent: string, owned: int): int {
    if intent == "remove" then owned - 1 else owned + 1
  }

  function Intend(site: Site, r: Record, intent: string, proof: Digest): Record {
    r.(version := if site.scoped then 3 else 2, pending := intent, proof := Sha(proof))
  }

  function Commit(r: Record, owned: int, snapshot: Digest): Record {
    r.(owned := owned, snapshot := Sha(snapshot), pending := "", proof := Empty)
  }

  /** `change`: observe, record the intent, act, observe, record the outcome. */
  function Change(site: Site, tape: Tape, s: State, intent: string): (r: (State, Exit))
    ensures r.1.Done? ==> r.0.r.owned == After(intent, s.r.owned)
    ensures r.0.r.owned != s.r.owned ==> r.1.Done?
  {
    var (w1, checked) := Check(site, tape, s);
    if !checked.Done? then (State(w1, s.r), checked)
    else
      var index := IndexOf(intent, s.r.owned);
      var (w2, seen) := Witness(site, tape, w1, index);
      if !seen.Got? then (State(w2, s.r), seen.Leave())
      else if Sha(seen.value.whole) != s.r.snapshot || !CountsMatch(seen.value.counts, s.r.owned)
      then (State(w2, s.r), Failed)
      else
        var intended := Intend(site, s.r, intent, seen.value.residual);
        var (w3, written) := Save(site, tape, w2, intended);
        if !written.Done? then (State(w3, intended), written)
        else
          var (w4, ran) := Run(site, tape, w3, intent, index);
          if !ran.Done? then (State(w4, intended), ran)
          else
            var owned := After(intent, s.r.owned);
            var (w5, again) := Snapshot(site, tape, w4, owned);
            if !again.Got? then (State(w5, intended), again.Leave())
            else
              var committed := Commit(intended, owned, again.value);
              var (w6, saved) := Save(site, tape, w5, committed);
              (State(w6, if saved.Done? then committed else intended), saved)
  }

  function AddAll(site: Site, tape: Tape, s: State): (State, Exit)
    decreases PLAN_LENGTH - s.r.owned
  {
    if s.r.owned >= PLAN_LENGTH then (s, Done)
    else
      var (next, exit) := Change(site, tape, s, "add");
      if exit.Done? then AddAll(site, tape, next) else (next, exit)
  }

  function RemoveAll(site: Site, tape: Tape, s: State): (State, Exit)
    decreases s.r.owned
  {
    if s.r.owned <= 0 then (s, Done)
    else
      var (next, exit) := Change(site, tape, s, "remove");
      if exit.Done? then RemoveAll(site, tape, next) else (next, exit)
  }

  predicate Contains(s: string, part: string) {
    exists k :: 0 <= k <= |s| - |part| && part <= s[k..]
  }

  /** The strict admission test: an empty firewall, default policy rules and
      nothing but loopback routes. */
  predicate FreshNamespace(outputs: seq<string>)
    requires |outputs| == 3
  {
    && !Contains(outputs[0], "-A ") && !Contains(outputs[0], "-N ")
    && (forall line :: line in SplitLines(outputs[1]) ==>
          Fields(line) == [] || Fields(line)[0] in {"0:", "32766:", "32767:"})
    && (forall line :: line in SplitLines(outputs[2]) ==>
          line == "" || (Contains(line, "dev lo") && (Contains(line, "127.") || HasPrefix(line, "local ::1 dev lo "))))
  }

  /** The baseline `Setup` takes before it starts, or the reason it may not start.
      A strict snapshot is assigned before its error is looked at. */
  function Baseline(site: Site, tape: Tape, s: State): (State, Exit) {
    if site.scoped then
      var (w1, seen) := ObserveScoped(site, tape, s.w);
      match seen
      case Bad => (State(w1, s.r), Failed)
      case Dead => (State(w1, s.r), Crashed)
      case Got(found) =>
        if CountsMatch(found.counts, 0) then (State(w1, s.r.(snapshot := Sha(found.digest))), Done) else (State(w1, s.r), Failed)
    else
      var (w1, seen) := Capture(site, tape, s.w);
      if !seen.Got? then (State(w1, s.r), seen.Leave())
      else if |seen.value| != 3 || !FreshNamespace(seen.value) then (State(w1, s.r), Failed)
      else
        var (w2, again) := Capture(site, tape, w1);
        (State(w2, s.r.(snapshot := if again.Got? then Sha(Texts(again.value)) else Empty)), again.Leave())
  }

  /** `Setup` */
  function Setup(site: Site, tape: Tape, s: State): (State, Exit) {
    var (w1, checked) := Check(site, tape, s);
    if !checked.Done? then (State(w1, s.r), checked)
    else if s.r.owned == PLAN_LENGTH then (State(w1, s.r), Done)
    else if s.r.owned != 0 then (State(w1, s.r), Failed)
    else
      var (started, based) := Baseline(site, tape, State(w1, s.r));
      if !based.Done? then (started, based)
      else
        var (w3, saved) := Save(site, tape, started.w, started.r);
        if !saved.Done? then (State(w3, started.r), saved)
        else AddAll(site, tape, State(w3, started.r))
  }

  /** The number of owned steps a witness leaves possible after a pending intent. */
  function Outcome(counts: Counts, intent: string, owned: int): Option<int> {
    if CountsMatch(counts, After(intent, owned)) then Some(After(intent, owned))
    else if CountsMatch(counts, owned) then Some(owned)
    else None
  }

  /** `reconcile` */
  function Reconcile(site: Site, tape: Tape, s: State): (State, Exit) {
    if (s.r.version != 2 && s.r.version != 3) || s.r.proof == Empty then (s, Failed)
    else
      var (w1, seen) := Witness(site, tape, s.w, IndexOf(s.r.pending, s.r.owned));
      if !seen.Got? then (State(w1, s.r), seen.Leave())
      else if Sha(seen.value.residual) != s.r.proof then (State(w1, s.r), Failed)
      else
        var owned := Outcome(seen.value.counts, s.r.pending, s.r.owned);
        if owned.None? then (State(w1, s.r), Failed)
        else
          var committed := Commit(s.r, owned.value, seen.value.whole);
          var (w2, saved) := Save(site, tape, w1, committed);
          (State(w2, if saved.Done? then committed else s.r), saved)
  }

  /** `ResolvePending` */
  function Resolve(site: Site, tape: Tape, s: State): (State, Exit) {
    if s.r.pending != "" then Reconcile(site, tape, s)
    else
      var (w1, exit) := Check(site, tape, s);
      (State(w1, s.r), exit)
  }

  /** `Recover` */
  function Recover(site: Site, tape: Tape, s: State): (State, Exit) {
    var (resolved, exit) := if s.r.pending != "" then Reconcile(site, tape, s) else (s, Done);
    if !exit.Done? then (resolved, exit)
    else
      var (w1, checked) := Check(site, tape, resolved);
      if !checked.Done? then (State(w1, resolved.r), checked)
      else RemoveAll(site, tape, State(w1, resolved.r))
  }

  /** The record a controller opens with: a fresh one, or the decoded file. */
  function Open(site: Site, disk: Option<Record>): Option<Record> {
    if !ValidPlan(site.plan) then None
    else
      match disk
      case None => Some(Record(if site.scoped then 3 else 2, site.ns, site.boot, site.plan, 0, "", Empty, Empty))
      case Some(r) => Decode(site, r)
  }

  // ---- whole runs ----

  datatype Event = OnOpen | OnSetup | OnResolve | OnRecover | OnClose

  /** At most one controller is live: it holds the lock until it closes or dies. */
  datatype System = System(w: Earth, session: Option<Record>)

  function Leave(result: (State, Exit)): System {
    System(result.0.w, if result.1.Crashed? then None else Some(result.0.r))
  }

  function Advance(site: Site, tape: Tape, sys: System, event: Event): System {
    match sys.session
    case None => if event.OnOpen? then sys.(session := Open(site, sys.w.disk)) else sys
    case Some(r) =>
      match event
      case OnOpen => sys
      case OnClose => sys.(session := None)
      case OnSetup => Leave(Setup(site, tape, State(sys.w, r)))
      case OnResolve => Leave(Resolve(site, tape, State(sys.w, r)))
      case OnRecover => Leave(Recover(site, tape, State(sys.w, r)))
  }

  function Play(site: Site, tape: Tape, sys: System, events: seq<Event>): System
    decreases |events|
  {
    if events == [] then sys else Play(site, tape, Advance(site, tape, sys, events[0]), events[1..])
  }
}
