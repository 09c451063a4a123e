/** The controller's operations and whole runs: safety at every exit and crash
    point, order of removals, and refusal without a command. */
module JournalRuns {
  import opened Text
  import opened Plan
  import opened Observation
  import opened Resources
  import opened Scoped
  import opened KernelState
  import opened Tools
  import opened PlanMeaning
  import opened Journal
  import opened JournalSafety
  import opened Footprints

  /** Safe world and matching controller. */
  predicate Good(site: Site, s: State) {
    Safe(site, s.w) && Matches(site, s.w.kernel, s.r)
  }

  /** Removal commands for the first n steps, last step first. */
  function Descending(n: int): seq<Issue>
    decreases n
  {
    if n <= 0 then [] else [Issue("remove", n - 1)] + Descending(n - 1)
  }

  function Ascending(m: int): seq<Issue>
    decreases PLAN_LENGTH - m
  {
    if m >= PLAN_LENGTH then [] else [Issue("add", m)] + Ascending(m + 1)
  }

  lemma GoodChange(site: Site, tape: Tape, s: State, intent: string)
    requires Good(site, s)
    requires intent == "add" || intent == "remove"
    requires 0 <= After(intent, s.r.owned) <= PLAN_LENGTH
    ensures Good(site, Change(site, tape, s, intent).0)
  {
    hide Safe, Matches, Change;
    ChangeSafe(site, tape, s, intent);
  }

  lemma ChangeIssues(site: Site, tape: Tape, s: State, intent: string)
    requires Good(site, s)
    requires intent == "add" || intent == "remove"
    requires 0 <= After(intent, s.r.owned) <= PLAN_LENGTH
    ensures var (after, exit) := Change(site, tape, s, intent);
      && (exit.Done? ==> after.w.issued == s.w.issued + [Issue(intent, IndexOf(intent, s.r.owned))])
      && (after.w.issued == s.w.issued || after.w.issued == s.w.issued + [Issue(intent, IndexOf(intent, s.r.owned))])
  {
    hide Safe, Matches, Change;
    ChangeSafe(site, tape, s, intent);
  }

  lemma Extended(a: seq<Issue>, x: Issue, rest: seq<Issue>)
    ensures a + ([x] + rest) == (a + [x]) + rest
    ensures a <= a + ([x] + rest) && a + [x] <= a + ([x] + rest)
  {
  }

  lemma {:induction false} AddAllSafe(site: Site, tape: Tape, s: State)
    requires Good(site, s) && 0 <= s.r.owned <= PLAN_LENGTH
    ensures var (after, exit) := AddAll(site, tape, s);
      && Good(site, after)
      && after.w.issued <= s.w.issued + Ascending(s.r.owned)
      && (exit.Done? ==> after.r.owned == PLAN_LENGTH && after.w.issued == s.w.issued + Ascending(s.r.owned))
    decreases PLAN_LENGTH - s.r.owned
  {
    hide Good, Change;
    if s.r.owned < PLAN_LENGTH {
      var (next, exit) := Change(site, tape, s, "add");
      assert Good(site, next) by { GoodChange(site, tape, s, "add"); }
      ChangeIssues(site, tape, s, "add");
      Extended(s.w.issued, Issue("add", s.r.owned), Ascending(s.r.owned + 1));
      if exit.Done? { AddAllSafe(site, tape, next); }
    }
  }

  lemma {:induction false} RemoveAllSafe(site: Site, tape: Tape, s: State)
    requires Good(site, s) && 0 <= s.r.owned <= PLAN_LENGTH
    ensures var (after, exit) := RemoveAll(site, tape, s);
      && Good(site, after)
      && after.w.issued <= s.w.issued + Descending(s.r.owned)
      && (exit.Done? ==> after.r.owned == 0 && after.w.issued == s.w.issued + Descending(s.r.owned))
    decreases s.r.owned
  {
    hide Good, Change;
    if s.r.owned > 0 {
      var (next, exit) := Change(site, tape, s, "remove");
      assert Good(site, next) by { GoodChange(site, tape, s, "remove"); }
      ChangeIssues(site, tape, s, "remove");
      Extended(s.w.issued, Issue("remove", s.r.owned - 1), Descending(s.r.owned - 1));
      if exit.Done? { RemoveAllSafe(site, tape, next); }
    }
  }

  lemma MatchesOwned(site: Site, k: Kernel, r: Record)
    requires |k.lines| == 3 && Matches(site, k, r)
    ensures 0 <= r.owned <= PLAN_LENGTH
    ensures r.pending in {"", "add", "remove"}
    ensures r.pending == "" ==> Shape(site, k, r.owned)
    ensures r.pending != "" ==> 0 <= After(r.pending, r.owned) <= PLAN_LENGTH && r.snapshot.Sha?
  {
  }

  lemma BaselineSound(site: Site, tape: Tape, s: State)
    requires Printed(s.w.kernel.lines)
    ensures var (after, exit) := Baseline(site, tape, s);
      && Untouched(site, s.w, after.w)
      && (exit.Done? ==> after.r == s.r.(snapshot := Sha(SnapshotOf(site, s.w.kernel))))
      && (exit.Done? && site.scoped ==> Shape(site, s.w.kernel, 0))
      && (!exit.Done? ==> after.r == s.r || after.r == s.r.(snapshot := Empty))
  {
    hide ObserveScoped, Claims, RowTexts, Tick, Listing, FreshNamespace, Printed;
    if site.scoped {
      ObserveScopedSound(site, tape, s.w);
    } else {
      TickUntouched(site, tape, s.w);
      TickUntouched(site, tape, Capture(site, tape, s.w).0);
    }
  }

  lemma StartedMatches(site: Site, k: Kernel, r: Record)
    requires |k.lines| == 3 && Matches(site, k, r) && r.pending == "" && r.owned == 0
    ensures Matches(site, k, r.(snapshot := Sha(SnapshotOf(site, k)))) && Matches(site, k, r.(snapshot := Empty))
  {
    hide Claims, SnapshotOf;
  }

  lemma SetupSafe(site: Site, tape: Tape, s: State)
    requires Good(site, s)
    ensures var (after, exit) := Setup(site, tape, s);
      && Good(site, after)
      && after.w.issued <= s.w.issued + Ascending(0)
      && (exit.Done? ==> after.r.owned == PLAN_LENGTH && after.r.pending == "")
  {
    hide Check, Baseline, Save, AddAll, Matches, Safe, SnapshotOf, Untouched, Shape;
    var w1 := Check(site, tape, s).0;
    CheckSafe(site, tape, s);
    CheckFrame(site, tape, s);
    if Check(site, tape, s).1.Done? && s.r.owned == 0 {
      BaselineSafe(site, tape, State(w1, s.r));
      var (started, based) := Baseline(site, tape, State(w1, s.r));
      if based.Done? {
        var (w3, saved) := Save(site, tape, started.w, started.r);
        SaveSafe(site, tape, started.w, started.r);
        SameViewMatches(site, started.w.kernel, w3.kernel, started.r);
        if saved.Done? {
          AddAllSafe(site, tape, State(w3, started.r));
          AddAllSettles(site, tape, State(w3, started.r));
        }
      }
    }
  }

  lemma BaselineSafe(site: Site, tape: Tape, s: State)
    requires Good(site, s) && s.r.pending == "" && s.r.owned == 0
    ensures var (after, exit) := Baseline(site, tape, s);
      && Good(site, after) && after.w.issued == s.w.issued
      && after.r == s.r.(snapshot := after.r.snapshot) && (exit.Done? ==> after.r.snapshot.Sha?)
  {
    hide Baseline, Matches, Safe, SnapshotOf, Untouched, Shape;
    var after := Baseline(site, tape, s).0;
    SafePrinted(site, s.w);
    BaselineSound(site, tape, s);
    UntouchedSafe(site, s.w, after.w);
    UntouchedMatches(site, s.w, after.w, s.r);
    UntouchedFrame(site, s.w, after.w);
    UntouchedDigests(site, s.w, after.w, 0);
    StartedMatches(site, after.w.kernel, s.r);
  }

  lemma {:induction false} AddAllSettles(site: Site, tape: Tape, s: State)
    requires s.r.pending == ""
    ensures AddAll(site, tape, s).1.Done? ==> AddAll(site, tape, s).0.r.pending == ""
    decreases PLAN_LENGTH - s.r.owned
  {
    hide Check, Witness, Save, Run, Snapshot;
    if s.r.owned < PLAN_LENGTH {
      var (next, exit) := Change(site, tape, s, "add");
      if exit.Done? { AddAllSettles(site, tape, next); }
    }
  }

  /** `reconcile` never issues a command; on success the record holds exactly the
      number of steps the kernel does. */
  lemma ReconcileSafe(site: Site, tape: Tape, s: State)
    requires Good(site, s) && s.r.pending != ""
    ensures var (after, exit) := Reconcile(site, tape, s);
      && Good(site, after) && after.w.issued == s.w.issued
      && (exit.Done? ==> after.r.pending == "" && after.r.snapshot.Sha? && after.w.disk == Some(after.r))
  {
    hide Witness, Save, Matches, Safe, Shape, SnapshotOf, ProofOf, Untouched;
    MatchesOwned(site, s.w.kernel, s.r);
    var index := IndexOf(s.r.pending, s.r.owned);
    var (w1, seen) := Witness(site, tape, s.w, index);
    SafePrinted(site, s.w);
    WitnessSound(site, tape, s.w, index);
    UntouchedSafe(site, s.w, w1);
    UntouchedMatches(site, s.w, w1, s.r);
    UntouchedFrame(site, s.w, w1);
    UntouchedDigests(site, s.w, w1, index);
    if seen.Got? {
      var owned := Outcome(seen.value.counts, s.r.pending, s.r.owned);
      if owned.Some? {
        var committed := Commit(s.r, owned.value, seen.value.whole);
        UntouchedShape(site, s.w, w1, owned.value);
        CommitMatches(site, w1.kernel, s.r, owned.value);
        SaveSafe(site, tape, w1, committed);
        var w2 := Save(site, tape, w1, committed).0;
        SameViewMatches(site, w1.kernel, w2.kernel, committed);
        SameViewMatches(site, w1.kernel, w2.kernel, s.r);
      }
    }
  }

  lemma ResolveSafe(site: Site, tape: Tape, s: State)
    requires Good(site, s)
    ensures var (after, exit) := Resolve(site, tape, s);
      && Good(site, after) && after.w.issued == s.w.issued
      && (exit.Done? ==> after.r.pending == "")
  {
    hide Check, Reconcile, Matches, Safe;
    if s.r.pending != "" {
      ReconcileSafe(site, tape, s);
    } else {
      CheckSafe(site, tape, s);
      CheckFrame(site, tape, s);
    }
  }

  lemma {:induction false} RemoveAllSettles(site: Site, tape: Tape, s: State)
    requires s.r.pending == ""
    ensures RemoveAll(site, tape, s).1.Done? ==> RemoveAll(site, tape, s).0.r.pending == ""
    decreases s.r.owned
  {
    hide Check, Witness, Save, Run, Snapshot;
    if s.r.owned > 0 {
      var (next, exit) := Change(site, tape, s, "remove");
      if exit.Done? { RemoveAllSettles(site, tape, next); }
    }
  }

  lemma RecoverSafe(site: Site, tape: Tape, s: State)
    requires Good(site, s)
    ensures var (after, exit) := Recover(site, tape, s);
      && Good(site, after)
      && (exit.Done? ==> after.r.owned == 0 && after.r.pending == "")
  {
    hide Check, Reconcile, RemoveAll, Matches, Safe;
    var (resolved, exit) := if s.r.pending != "" then Reconcile(site, tape, s) else (s, Done);
    if s.r.pending != "" { ReconcileSafe(site, tape, s); }
    if exit.Done? {
      var (w1, checked) := Check(site, tape, resolved);
      CheckSafe(site, tape, resolved);
      if checked.Done? {
        MatchesOwned(site, w1.kernel, resolved.r);
        RemoveAllSafe(site, tape, State(w1, resolved.r));
        RemoveAllSettles(site, tape, State(w1, resolved.r));
      }
    }
  }

  // ---- the recovery every supervisor makes ----

  /** `scopedCleanup`: open, resolve, recover. */
  function Cleanup(site: Site, tape: Tape, w: Earth): (Earth, Exit) {
    match Open(site, w.disk)
    case None => (w, Failed)
    case Some(r) =>
      var (resolved, exit) := Resolve(site, tape, State(w, r));
      if !exit.Done? then (resolved.w, exit)
      else
        var (after, last) := Recover(site, tape, resolved);
        (after.w, last)
  }

  /** A cleanup that reports success has left none of the planned resources. */
  lemma CleanupEmpties(site: Site, tape: Tape, w: Earth)
    requires Safe(site, w) && ValidPlan(site.plan)
    ensures var (after, exit) := Cleanup(site, tape, w);
      Safe(site, after) && (exit.Done? ==> Shape(site, after.kernel, 0))
  {
    hide Safe, Matches, Resolve, Recover, Shape;
    OpenMatches(site, w);
    var s := State(w, Open(site, w.disk).value);
    ResolveSafe(site, tape, s);
    var (resolved, exit) := Resolve(site, tape, s);
    if exit.Done? {
      RecoverSafe(site, tape, resolved);
      var (after, last) := Recover(site, tape, resolved);
      if last.Done? { MatchesOwned(site, after.w.kernel, after.r); }
    }
  }

  // ---- whole runs ----

  predicate SafeSystem(site: Site, sys: System) {
    Safe(site, sys.w) && (sys.session.Some? ==> Matches(site, sys.w.kernel, sys.session.value))
  }

  lemma OpenMatches(site: Site, w: Earth)
    requires Safe(site, w) && ValidPlan(site.plan)
    ensures Open(site, w.disk).Some? && Matches(site, w.kernel, Open(site, w.disk).value)
    ensures w.disk.Some? ==> Open(site, w.disk) == w.disk
  {
    hide SnapshotOf, ProofOf, Claims;
    if w.disk.Some? { SafeRecordDecodes(site, w.kernel, w.disk.value); }
  }

  lemma StepSafe(site: Site, tape: Tape, sys: System, event: Event)
    requires SafeSystem(site, sys) && ValidPlan(site.plan)
    ensures SafeSystem(site, Advance(site, tape, sys, event))
  {
    hide Setup, Resolve, Recover, Open, Safe, Matches;
    match sys.session {
      case None => OpenMatches(site, sys.w);
      case Some(r) =>
        SetupSafe(site, tape, State(sys.w, r));
        ResolveSafe(site, tape, State(sys.w, r));
        RecoverSafe(site, tape, State(sys.w, r));
    }
  }

  lemma {:induction false} EveryRunSafe(site: Site, tape: Tape, sys: System, events: seq<Event>)
    requires SafeSystem(site, sys) && ValidPlan(site.plan)
    ensures SafeSystem(site, Play(site, tape, sys, events))
    decreases |events|
  {
    hide SafeSystem, Advance;
    if events != [] {
      StepSafe(site, tape, sys, events[0]);
      EveryRunSafe(site, tape, Advance(site, tape, sys, events[0]), events[1..]);
    }
  }

  /** No journal, no controller, no reserved resources; anything else may be there. */
  predicate Fresh(site: Site, sys: System) {
    && sys.session.None? && sys.w.disk.None?
    && Printed(sys.w.kernel.lines) && Shape(site, sys.w.kernel, 0)
  }

  /** The write-ahead guarantee. After any sequence of operations, with any
      failures, ambiguous commands, interrupted saves, deaths and reopenings:
      the kernel holds a prefix of the plan; it is as long as the durable record
      says, up to the one step that record has pending; and the record reads
      back unchanged. */
  lemma WriteAhead(site: Site, tape: Tape, start: System, events: seq<Event>)
    requires Fresh(site, start) && ValidPlan(site.plan)
    ensures var end := Play(site, tape, start, events);
      match end.w.disk
      case None => Shape(site, end.w.kernel, 0)
      case Some(r) =>
        && Decode(site, r) == Some(r)
        && (r.pending == "" ==> Shape(site, end.w.kernel, r.owned))
        && (r.pending == "add" ==> Shape(site, end.w.kernel, r.owned) || Shape(site, end.w.kernel, r.owned + 1))
        && (r.pending == "remove" ==> Shape(site, end.w.kernel, r.owned) || Shape(site, end.w.kernel, r.owned - 1))
  {
    hide Play, Claims, SnapshotOf, ProofOf, Renders, Printed;
    assert SafeSystem(site, start);
    EveryRunSafe(site, tape, start, events);
    var end := Play(site, tape, start, events);
    if end.w.disk.Some? { SafeRecordDecodes(site, end.w.kernel, end.w.disk.value); }
  }

  // ---- whose record it is ----

  predicate SameSite(a: Site, b: Site) {
    a.scoped == b.scoped && a.ns == b.ns && a.boot == b.boot && a.plan == b.plan
  }

  /** What a record's intent leads to. */
  predicate Leads(pending: string, owned: int, next: int) {
    next == match pending case "" => owned case "add" => owned + 1 case "remove" => owned - 1 case _ => -1
  }

  /** A record is accepted exactly if it is this site's, names a prefix of the plan
      that its intent leads from and to, and has its digests: a proof belongs to an
      intent, and version 1 had none. */
  lemma DecodeExactly(site: Site, r: Record)
    ensures Decode(site, r).Some? <==>
      && ValidPlan(site.plan) && r.ns == site.ns && r.boot == site.boot && r.plan == site.plan
      && (if site.scoped then r.version == 3 else 1 <= r.version <= 2)
      && (exists next :: 0 <= next <= 8 && Leads(r.pending, r.owned, next)) && 0 <= r.owned <= 8
      && r.snapshot.Sha? && (r.proof == Empty || (r.proof.Sha? && r.pending != "" && r.version != 1))
    ensures Decode(site, r).Some? ==> Decode(site, r) == Some(r)
  {
    var next := match r.pending case "" => r.owned case "add" => r.owned + 1 case "remove" => r.owned - 1 case _ => -1;
    assert Leads(r.pending, r.owned, next);
  }

  /** After any run, what the journal holds is opened by a controller of the same
      mode, namespace, boot and plan, and by no other. */
  lemma RecordBelongsToOneSite(site: Site, tape: Tape, start: System, events: seq<Event>, other: Site)
    requires Fresh(site, start) && ValidPlan(site.plan)
    ensures var disk := Play(site, tape, start, events).w.disk;
      disk.Some? ==> (Open(other, disk).Some? <==> SameSite(site, other))
  {
    hide Play, Claims, SnapshotOf, ProofOf, Renders, Printed;
    WriteAhead(site, tape, start, events);
    var end := Play(site, tape, start, events);
    assert SafeSystem(site, start);
    EveryRunSafe(site, tape, start, events);
    if end.w.disk.Some? { assert Matches(site, end.w.kernel, end.w.disk.value); }
  }

  // ---- refusal: these hold of any kernel, however disturbed ----

  lemma CheckNeeds(site: Site, tape: Tape, s: State)
    requires Printed(s.w.kernel.lines)
    ensures var (after, exit) := Check(site, tape, s);
      && Untouched(site, s.w, after)
      && (exit.Done? ==>
           && s.r.pending == ""
           && (s.r.snapshot == Empty || s.r.snapshot == Sha(SnapshotOf(site, s.w.kernel)))
           && (site.scoped ==> Shape(site, s.w.kernel, s.r.owned)))
  {
    hide Snapshot, Claims, SnapshotOf;
    SnapshotSound(site, tape, s.w, s.r.owned);
  }

  lemma SaveFrame(site: Site, tape: Tape, w: Earth, r: Record)
    ensures var after := Save(site, tape, w, r).0;
      && SameView(site, w.kernel, after.kernel) && after.issued == w.issued
      && (Printed(w.kernel.lines) ==> Printed(after.kernel.lines))
  {
    hide Claims, Printed, SameView;
    TickUntouched(site, tape, w);
  }

  /** A command is issued only if the footprint just observed is exactly the
      recorded steps, with the recorded bodies. */
  lemma ChangeNeedsFootprint(site: Site, tape: Tape, s: State, intent: string)
    requires Printed(s.w.kernel.lines)
    requires Change(site, tape, s, intent).0.w.issued != s.w.issued
    ensures s.r.pending == ""
    ensures Shape(site, s.w.kernel, s.r.owned)
    ensures s.r.snapshot == Sha(SnapshotOf(site, s.w.kernel))
  {
    hide Check, Witness, Save, Run, Snapshot, Shape, SnapshotOf, ProofOf, Printed, SameView, Claims;
    var (w1, checked) := Check(site, tape, s);
    CheckNeeds(site, tape, s);
    var index := IndexOf(intent, s.r.owned);
    var (w2, seen) := Witness(site, tape, w1, index);
    WitnessSound(site, tape, w1, index);
    UntouchedDigests(site, s.w, w1, 0);
    SameViewBack(site, s.w.kernel, w1.kernel, s.r.owned);
    if seen.Got? { SaveFrame(site, tape, w2, Intend(site, s.r, intent, seen.value.residual)); }
  }

  lemma SameViewSymmetric(site: Site, a: Kernel, b: Kernel)
    requires |a.lines| == 3 && |b.lines| == 3 && SameView(site, a, b)
    ensures SameView(site, b, a)
  {
  }

  lemma ChangeDoneIssues(site: Site, tape: Tape, s: State, intent: string)
    requires Printed(s.w.kernel.lines)
    requires Change(site, tape, s, intent).1.Done?
    ensures |Change(site, tape, s, intent).0.w.issued| > |s.w.issued|
  {
    hide Check, Witness, Save, Run, Snapshot, Printed, SameView, Claims, Shape, SnapshotOf, ProofOf;
    var w1 := Check(site, tape, s).0;
    CheckNeeds(site, tape, s);
    var index := IndexOf(intent, s.r.owned);
    var (w2, seen) := Witness(site, tape, w1, index);
    WitnessSound(site, tape, w1, index);
    var intended := Intend(site, s.r, intent, seen.value.residual);
    var w3 := Save(site, tape, w2, intended).0;
    SaveFrame(site, tape, w2, intended);
    var w4 := Run(site, tape, w3, intent, index).0;
    RunIssues(site, tape, w3, intent, index);
    var (w5, again) := Snapshot(site, tape, w4, After(intent, s.r.owned));
    SnapshotSound(site, tape, w4, After(intent, s.r.owned));
    SaveFrame(site, tape, w5, Commit(intended, After(intent, s.r.owned), again.value));
  }

  lemma RunIssues(site: Site, tape: Tape, w: Earth, intent: string, index: int)
    requires Printed(w.kernel.lines)
    ensures Run(site, tape, w, intent, index).0.issued == w.issued + [Issue(intent, index)]
    ensures Printed(Run(site, tape, w, intent, index).0.kernel.lines)
  {
    hide Claims, RowTexts, Judge, RowIndex, Unclaimed;
    var t := Tick(site, tape, w);
    var c := tape(w.clock);
    TickUntouched(site, tape, w);
    if index >= 0 && Possible(site, t.kernel, intent, index, c.prints(index)) {
      EffectIs(site, t.kernel, intent, index, c.prints(index), c.pos);
      if intent == "add" {
        InsertPrinted(t.kernel.lines[StepBucket(index)], c.prints(index), c.pos);
      } else {
        RemovedClaims(site, t.kernel, index);
      }
    }
  }

  /** `Setup` adopts nothing: if any reserved resource is present it issues no
      command (with all eight owned it has nothing to do). */
  lemma SetupNeedsEmptyFootprint(site: Site, tape: Tape, s: State)
    requires Printed(s.w.kernel.lines)
    requires Setup(site, tape, s).0.w.issued != s.w.issued
    ensures s.r.pending == "" && s.r.owned == 0 && Shape(site, s.w.kernel, 0)
  {
    hide Check, Baseline, Save, Shape, SnapshotOf, Printed, SameView, Claims, Change;
    var w1 := Check(site, tape, s).0;
    CheckNeeds(site, tape, s);
    var (started, based) := Baseline(site, tape, State(w1, s.r));
    BaselineSound(site, tape, State(w1, s.r));
    if based.Done? {
      var w3 := Save(site, tape, started.w, started.r).0;
      SaveFrame(site, tape, started.w, started.r);
      AddAllNeeds(site, tape, State(w3, started.r));
      SameViewBack(site, s.w.kernel, w1.kernel, 0);
      SameViewBack(site, w1.kernel, started.w.kernel, 0);
      SameViewBack(site, started.w.kernel, w3.kernel, 0);
    }
  }

  lemma SameViewBack(site: Site, a: Kernel, b: Kernel, n: int)
    requires |a.lines| == 3 && |b.lines| == 3 && SameView(site, a, b)
    ensures Shape(site, b, n) ==> Shape(site, a, n)
  {
    hide SameView, Shape;
    SameViewSymmetric(site, a, b);
    if Shape(site, b, n) { SameViewShape(site, b, a, n); }
  }

  lemma AddAllNeeds(site: Site, tape: Tape, s: State)
    requires Printed(s.w.kernel.lines)
    requires s.r.owned == 0
    ensures AddAll(site, tape, s).0.w.issued != s.w.issued ==> Shape(site, s.w.kernel, 0)
  {
    hide Change, Shape, Printed, SnapshotOf;
    if Change(site, tape, s, "add").0.w.issued != s.w.issued {
      ChangeNeedsFootprint(site, tape, s, "add");
    } else if Change(site, tape, s, "add").1.Done? {
      ChangeDoneIssues(site, tape, s, "add");
    }
  }

  /** `Recover` issues a command only if the footprint is a prefix of the plan:
      the recorded one, or one the pending intent allows. */
  lemma RecoverNeedsPrefix(site: Site, tape: Tape, s: State)
    requires Printed(s.w.kernel.lines)
    requires Recover(site, tape, s).0.w.issued != s.w.issued
    ensures s.r.pending == "" ==> Shape(site, s.w.kernel, s.r.owned) && s.r.snapshot == Sha(SnapshotOf(site, s.w.kernel))
    ensures s.r.pending != "" ==>
      && (Shape(site, s.w.kernel, s.r.owned) || Shape(site, s.w.kernel, After(s.r.pending, s.r.owned)))
      && s.r.proof == Sha(ProofOf(site, s.w.kernel, IndexOf(s.r.pending, s.r.owned)))
  {
    hide Check, Reconcile, Change, Shape, SnapshotOf, ProofOf, Printed, SameView, Claims;
    var (resolved, exit) := if s.r.pending != "" then Reconcile(site, tape, s) else (s, Done);
    if s.r.pending != "" { ReconcileExact(site, tape, s); }
    if exit.Done? {
      var (w1, checked) := Check(site, tape, resolved);
      CheckNeeds(site, tape, resolved);
      UntouchedDigests(site, resolved.w, w1, 0);
      if checked.Done? && resolved.r.owned > 0 {
        var ready := State(w1, resolved.r);
        if Change(site, tape, ready, "remove").0.w.issued != w1.issued {
          ChangeNeedsFootprint(site, tape, ready, "remove");
          SameViewBack(site, resolved.w.kernel, w1.kernel, resolved.r.owned);
        } else if Change(site, tape, ready, "remove").1.Done? {
          ChangeDoneIssues(site, tape, ready, "remove");
        }
      }
    }
  }

  /** `reconcile` is exact on any kernel. It succeeds only if everything but the
      intended step is as it was when the intent was written and the footprint
      is the old prefix or differs by exactly that step; then the recorded
      length is the kernel's, and the new snapshot is the kernel's. */
  lemma ReconcileExact(site: Site, tape: Tape, s: State)
    requires Printed(s.w.kernel.lines)
    ensures var (after, exit) := Reconcile(site, tape, s);
      && SameView(site, s.w.kernel, after.w.kernel) && Printed(after.w.kernel.lines)
      && after.w.issued == s.w.issued
      && (!exit.Done? ==> after.r == s.r)
      && (exit.Done? ==>
           && s.r.version in {2, 3}
           && s.r.proof == Sha(ProofOf(site, s.w.kernel, IndexOf(s.r.pending, s.r.owned)))
           && after.r.owned in {s.r.owned, After(s.r.pending, s.r.owned)}
           && Shape(site, s.w.kernel, after.r.owned)
           && after.r.snapshot == Sha(SnapshotOf(site, s.w.kernel))
           && after.r.pending == "" && after.w.disk == Some(after.r))
  {
    hide Witness, Shape, SnapshotOf, ProofOf, Printed, Claims, Tick, Resources.CountEntries;
    var index := IndexOf(s.r.pending, s.r.owned);
    var (w1, seen) := Witness(site, tape, s.w, index);
    WitnessSound(site, tape, s.w, index);
    if seen.Got? && Outcome(seen.value.counts, s.r.pending, s.r.owned).Some? {
      SaveFrame(site, tape, w1, Commit(s.r, Outcome(seen.value.counts, s.r.pending, s.r.owned).value, seen.value.whole));
    }
  }
}
