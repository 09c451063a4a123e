/** Recovery always completes: from every state a run can reach, once commands
    succeed and other writers stay outside the reserved footprint, ResolvePending
    and Recover remove every planned resource and nothing else. */
module Recovery {
  import opened Text
  import opened Plan
  import opened Observation
  import opened Resources
  import opened Scoped
  import opened Footprints
  import opened KernelState
  import opened Tools
  import opened PlanMeaning
  import opened Journal
  import opened JournalSafety
  import opened JournalRuns

  /** In scoped mode, every line that claims no step is disjoint from the footprint. */
  predicate CalmLines(site: Site, lines: seq<seq<string>>)
    requires |lines| == 3
  {
    site.scoped ==>
      forall e :: e in LinesOf(lines) && Claim(site.plan, e) < 0 ==>
        Disjoint(site.plan, Context(site.aliases, site.marks, {}), e)
  }

  /** From here on primitives succeed and other writers stay disjoint. */
  ghost predicate CalmTape(site: Site, tape: Tape, from: nat) {
    forall t: nat :: t >= from ==>
      tape(t).verdict.Succeed? && (Printed(tape(t).foreign) ==> CalmLines(site, tape(t).foreign))
  }

  /** From here on other writers change nothing at all. */
  ghost predicate StillTape(tape: Tape, from: nat) {
    forall t: nat :: t >= from ==> !Printed(tape(t).foreign)
  }

  /** From here on the kernel prints what a step adds in a form both classifiers
      recognise (Printing.EveryStepRenders gives one for each step). */
  ghost predicate Renderable(site: Site, tape: Tape, from: nat) {
    forall t: nat, i: nat :: t >= from && i < 8 ==> Renders(site, i, tape(t).prints(i))
  }

  // ---- observation of a calm kernel succeeds ----

  lemma {:induction false} ClaimedHolds(p: DestinationPlan, entries: seq<Entry>, e: Entry, i: nat)
    requires e in entries && Claim(p, e) == i
    ensures e in Claimed(p, entries, i)
  {
    hide Claim;
    var n := |entries| - 1;
    if e != entries[n] { ClaimedHolds(p, entries[..n], e, i); }
  }

  lemma ClaimBucket(p: DestinationPlan, e: Entry)
    requires Claim(p, e) >= 0
    ensures e.bucket == StepBucket(Claim(p, e))
  {
    hide JumpsTo, LoopbackRoute, RouteOptions, Fields, FormatUint;
  }

  lemma JudgeExact(p: DestinationPlan, a: Context, b: Context, e: Entry)
    requires a.aliases == b.aliases && a.marks == b.marks
    requires Judge(p, a, e).Planned?
    requires Claim(p, e) in a.exact ==> Claim(p, e) in b.exact
    ensures Judge(p, b, e) == Judge(p, a, e)
  {
    hide Claim, RouteOptions, Fields, FormatUint;
  }

  /** Which row a line goes to does not depend on the exact checks, and depends
      on the count of routes only for a route. */
  lemma RowIndexContext(p: DestinationPlan, a: Context, b: Context, m: nat, n: nat, e: Entry)
    requires a.aliases == b.aliases && a.marks == b.marks
    requires e.bucket == 2 ==> m == n
    ensures RowIndex(p, a, m, e) == RowIndex(p, b, n, e)
  {
    hide Fields, JumpScan, FormatUint, ParseUint32, ChainIndex;
    var f := Fields(e.line);
    if f != [] && e.bucket == 1 && ParseUint32(TrimColon(f[0])).Some? {
      var index := if ParseUint32(TrimColon(f[0])).value == p.priority then 1 else -1;
      LookupScanContext(p, a, b, f, 1, index);
    }
    assert InReservedTable(p, a, f) == InReservedTable(p, b, f) by {
      assert forall name :: NamesReserved(p, a, name) == NamesReserved(p, b, name);
    }
  }

  lemma {:induction false} LookupScanContext(p: DestinationPlan, a: Context, b: Context, f: seq<string>, i: nat, index: int)
    requires a.aliases == b.aliases
    ensures LookupScan(p, a, f, i, index) == LookupScan(p, b, f, i, index)
    decreases |f| - i
  {
    hide ParseUint32;
    if i + 1 < |f| { LookupScanContext(p, a, b, f, i + 1, index); }
  }

  lemma DisjointContext(p: DestinationPlan, a: Context, b: Context, e: Entry)
    requires a.aliases == b.aliases && a.marks == b.marks
    requires Disjoint(p, a, e)
    ensures Disjoint(p, b, e)
  {
    hide Fields, ParseUint32, FormatUint;
    assert forall name :: TableId(a, name) == TableId(b, name);
    assert forall name :: NamesReserved(p, a, name) == NamesReserved(p, b, name);
  }

  /** A planned line of an honest kernel passes both classifiers. */
  lemma PlannedLinePasses(site: Site, k: Kernel, n: int, e: Entry)
    requires |k.lines| == 3 && Honest(site, k) && Shape(site, k, n) && 0 <= n <= 8
    requires e in LinesOf(k.lines) && Claim(site.plan, e) >= 0
    ensures Judge(site.plan, ContextOf(site, k), e).Planned?
    ensures RowIndex(site.plan, ContextOf(site, k), |Claims(site.plan, k.lines, 0)|, e) == Ok(Claim(site.plan, e))
  {
    hide Claim, Judge, RowIndex, Printed, Displays, StepThing, ExactSteps;
    var p := site.plan;
    var i := Claim(p, e);
    ClaimedHolds(p, LinesOf(k.lines), e, i);
    assert Claims(p, k.lines, i) == [e];
    ClaimBucket(p, e);
    assert e == Entry(StepBucket(i), e.line);
    var ctx := Context(site.aliases, site.marks, RULE_STEPS);
    assert Renders(site, i, e.line);
    JudgeExact(p, ctx, ContextOf(site, k), e);
    RowIndexContext(p, ctx, ContextOf(site, k), 1, |Claims(p, k.lines, 0)|, e);
  }

  lemma ForeignLinePasses(site: Site, k: Kernel, routes: nat, e: Entry)
    requires |k.lines| == 3 && ValidPlan(site.plan) && CalmLines(site, k.lines) && site.scoped
    requires e in LinesOf(k.lines) || e.line == ""
    requires Claim(site.plan, e) < 0
    ensures RowIndex(site.plan, ContextOf(site, k), routes, e) == Ok(-1)
  {
    hide Claim, RowIndex;
    var ctx := Context(site.aliases, site.marks, {});
    if e.line == "" {
      EmptyLineDisjoint(site.plan, ctx, e);
    }
    DisjointContext(site.plan, ctx, ContextOf(site, k), e);
    DisjointLine(site.plan, ContextOf(site, k), routes, e);
  }

  lemma AcceptableKernel(site: Site, k: Kernel, n: int)
    requires |k.lines| == 3 && Honest(site, k) && Shape(site, k, n) && 0 <= n <= 8
    ensures Acceptable(site.plan, ContextOf(site, k), Entries(Listing(k.lines)))
  {
    hide Claim, Judge, RowIndex, Listing, Entries, Claimed, LinesOf, PrintedLines, Renders;
    var p, entries := site.plan, Entries(Listing(k.lines));
    forall e | e in entries ensures !Judge(p, ContextOf(site, k), e).Refuse? {
      ListedLine(k.lines, e);
      if e in LinesOf(k.lines) && Claim(p, e) >= 0 {
        PlannedLinePasses(site, k, n, e);
      } else if e.line == "" {
        EmptyLineUnclaimed(p, e.bucket);
        assert e == Entry(e.bucket, "");
      }
    }
    forall i | 0 <= i < 8 ensures |Claimed(p, entries, i)| <= 1 {
      ListedClaims(p, k.lines, i);
    }
  }

  lemma ListedLineAgrees(site: Site, k: Kernel, n: int, e: Entry)
    requires |k.lines| == 3 && Honest(site, k) && Shape(site, k, n) && 0 <= n <= 8
    requires ValidPlan(site.plan) && CalmLines(site, k.lines) && site.scoped && e in Entries(Listing(k.lines))
    ensures Agrees(site.plan, ContextOf(site, k), |Claims(site.plan, k.lines, 0)|, e)
  {
    hide Claim, Judge, RowIndex, Listing, Entries, Claims, LinesOf, Renders, PrintedLines, Shape, CalmLines, ExactSteps;
    var p := site.plan;
    ListedLine(k.lines, e);
    if e in LinesOf(k.lines) && Claim(p, e) >= 0 {
      PlannedLinePasses(site, k, n, e);
    } else {
      if e.line == "" { UnclaimedIfEmpty(p, e); }
      ForeignLinePasses(site, k, |Claims(p, k.lines, 0)|, e);
    }
  }

  lemma UnclaimedIfEmpty(p: DestinationPlan, e: Entry)
    requires e.line == "" && ValidPlan(p)
    ensures Claim(p, e) < 0
  {
    EmptyLineUnclaimed(p, e.bucket);
    assert e == Entry(e.bucket, "");
  }

  lemma CleanEntries(site: Site, k: Kernel, n: int)
    requires |k.lines| == 3 && Honest(site, k) && Shape(site, k, n) && 0 <= n <= 8
    requires ValidPlan(site.plan) && CalmLines(site, k.lines) && site.scoped
    ensures Clean(site.plan, ContextOf(site, k), Entries(Listing(k.lines)))
  {
    hide Agrees, Listing, Entries, Claimed, Claims, Renders, PrintedLines, Shape, CalmLines, Acceptable, ExactSteps, LinesOf;
    var p, entries := site.plan, Entries(Listing(k.lines));
    AcceptableKernel(site, k, n);
    ListedClaims(p, k.lines, 0);
    forall e | e in entries ensures Agrees(p, ContextOf(site, k), |Claimed(p, entries, 0)|, e) {
      ListedLineAgrees(site, k, n, e);
    }
  }

  lemma CleanKernel(site: Site, k: Kernel, n: int)
    requires |k.lines| == 3 && Honest(site, k) && Shape(site, k, n) && 0 <= n <= 8
    requires ValidPlan(site.plan) && CalmLines(site, k.lines) && site.scoped
    ensures ClassifyScoped(site.plan, ContextOf(site, k), Listing(k.lines)).Ok?
  {
    hide Clean, Listing, Entries, Claims, Claimed, RowTexts, Honest, Shape, CalmLines, ClassifyScoped;
    CleanEntries(site, k, n);
    ListingIsThree(k.lines);
    ClassifyClean(site.plan, ContextOf(site, k), Listing(k.lines));
  }

  lemma ListingIsThree(lines: seq<seq<string>>)
    requires |lines| == 3
    ensures |Listing(lines)| == 3
  {
  }

  // ---- progress of the operations ----

  /** Honest prefix of n steps, calm surroundings now and later. */
  ghost predicate Calm(site: Site, tape: Tape, w: Earth, n: int) {
    && ValidPlan(site.plan)
    && Honest(site, w.kernel) && Shape(site, w.kernel, n) && 0 <= n <= 8
    && CalmLines(site, w.kernel.lines)
    && CalmTape(site, tape, w.clock)
  }

  /** The foreign lines only change when the tape says other writers did so. */
  ghost predicate ForeignKept(site: Site, tape: Tape, a: Earth, b: Earth) {
    && b.clock >= a.clock
    && (StillTape(tape, a.clock) ==> ForeignLines(site.plan, b.kernel.lines) == ForeignLines(site.plan, a.kernel.lines))
  }

  lemma TickCalm(site: Site, tape: Tape, w: Earth, n: int)
    requires Calm(site, tape, w, n)
    ensures Calm(site, tape, Tick(site, tape, w), n)
    ensures ForeignKept(site, tape, w, Tick(site, tape, w))
    ensures tape(w.clock).verdict.Succeed?
  {
    hide Claims, Renders, Printed, Disjoint, Claim, ForeignLines;
    TickUntouched(site, tape, w);
  }

  lemma CalmAfter(site: Site, tape: Tape, a: Earth, b: Earth, c: Earth)
    requires ForeignKept(site, tape, a, b) && ForeignKept(site, tape, b, c)
    ensures ForeignKept(site, tape, a, c)
  {
  }

  lemma {:induction false} CalmThroughout(site: Site, tape: Tape, ws: seq<Earth>)
    requires |ws| > 1 && forall k :: 0 <= k < |ws| - 1 ==> ForeignKept(site, tape, ws[k], ws[k + 1])
    ensures ForeignKept(site, tape, ws[0], ws[|ws| - 1])
    decreases |ws|
  {
    hide ForeignKept;
    if |ws| > 2 {
      assert forall k :: 0 <= k < |ws| - 2 ==> ForeignKept(site, tape, ws[1..][k], ws[1..][k + 1]);
      CalmThroughout(site, tape, ws[1..]);
      assert ForeignKept(site, tape, ws[0], ws[0 + 1]);
      CalmAfter(site, tape, ws[0], ws[1], ws[|ws| - 1]);
    }
  }

  lemma CaptureCalm(site: Site, tape: Tape, w: Earth, n: int)
    requires Calm(site, tape, w, n)
    ensures var (after, seen) := Capture(site, tape, w);
      && seen == Got(Listing(after.kernel.lines))
      && Calm(site, tape, after, n) && ForeignKept(site, tape, w, after)
  {
    hide Tick, Calm, Listing, ForeignKept;
    TickCalm(site, tape, w, n);
  }

  lemma ObserveScopedCalm(site: Site, tape: Tape, w: Earth, n: int)
    requires Calm(site, tape, w, n) && site.scoped
    ensures var (after, seen) := ObserveScoped(site, tape, w);
      seen.Got? && Calm(site, tape, after, n) && ForeignKept(site, tape, w, after)
  {
    hide Capture, Listing, ClassifyScoped, ForeignKept, Honest, Shape, CalmLines, CalmTape, ContextOf;
    var w1 := Capture(site, tape, w).0;
    CaptureCalm(site, tape, w, n);
    var w2 := Capture(site, tape, w1).0;
    CaptureCalm(site, tape, w1, n);
    CalmAfter(site, tape, w, w1, w2);
    CleanKernel(site, w1.kernel, n);
    CleanKernel(site, w2.kernel, n);
    HonestPrinted(site, w.kernel);
    CaptureSameDigest(site, tape, w);
    CaptureSameDigest(site, tape, w1);
  }

  lemma CaptureSameDigest(site: Site, tape: Tape, w: Earth)
    requires Printed(w.kernel.lines)
    ensures var k := Capture(site, tape, w).0.kernel;
      && Printed(k.lines)
      && (ClassifyScoped(site.plan, ContextOf(site, k), Listing(k.lines)).Ok? ==>
            ClassifyScoped(site.plan, ContextOf(site, k), Listing(k.lines)).value.digest == Footprint(RowsOfKernel(site, w.kernel)))
      && RowsOfKernel(site, k) == RowsOfKernel(site, w.kernel)
  {
    hide Tick, Claims, Listing, ClassifyScoped, Printed, RowTexts;
    var after := Capture(site, tape, w).0;
    TickUntouched(site, tape, w);
    ClassifiedKernel(site, after.kernel);
    assert RowsOfKernel(site, after.kernel) == RowsOfKernel(site, w.kernel);
  }

  lemma ObserveResourcesCalm(site: Site, tape: Tape, w: Earth, n: int)
    requires Calm(site, tape, w, n) && !site.scoped
    ensures var (after, seen) := ObserveResources(site, tape, w);
      seen.Got? && Calm(site, tape, after, n) && ForeignKept(site, tape, w, after)
  {
    hide Listing, CountEntries, ForeignKept, Calm, Acceptable, Entries, ResidualBefore, Tick, ContextOf;
    var w1 := Capture(site, tape, w).0;
    CaptureCalm(site, tape, w, n);
    var w2 := Capture(site, tape, w1).0;
    CaptureCalm(site, tape, w1, n);
    CalmAfter(site, tape, w, w1, w2);
    CalmParts(site, tape, w1, n);
    AcceptableKernel(site, w1.kernel, n);
    CountsAreClaims(site.plan, ContextOf(site, w1.kernel), Entries(Listing(w1.kernel.lines)));
    StrictTickKeeps(site, tape, w1);
  }

  lemma CalmParts(site: Site, tape: Tape, w: Earth, n: int)
    requires Calm(site, tape, w, n)
    ensures ValidPlan(site.plan) && Honest(site, w.kernel) && Shape(site, w.kernel, n) && 0 <= n <= 8
    ensures Printed(w.kernel.lines)
  {
  }

  lemma StrictTickKeeps(site: Site, tape: Tape, w: Earth)
    requires !site.scoped
    ensures Tick(site, tape, w).kernel == w.kernel
  {
  }

  lemma SnapshotCalm(site: Site, tape: Tape, w: Earth, n: int)
    requires Calm(site, tape, w, n)
    ensures var (after, seen) := Snapshot(site, tape, w, n);
      && seen == Got(SnapshotOf(site, w.kernel))
      && Calm(site, tape, after, n) && ForeignKept(site, tape, w, after)
  {
    hide ObserveScoped, Capture, Calm, ForeignKept, Claims, SnapshotOf, RowTexts;
    CalmParts(site, tape, w, n);
    SnapshotSound(site, tape, w, n);
    if site.scoped {
      ObserveScopedCalm(site, tape, w, n);
      ObserveScopedSound(site, tape, w);
    } else {
      CaptureCalm(site, tape, w, n);
    }
  }

  lemma WitnessCalm(site: Site, tape: Tape, w: Earth, n: int, index: int)
    requires Calm(site, tape, w, n)
    ensures var (after, seen) := Witness(site, tape, w, index);
      && seen.Got?
      && Calm(site, tape, after, n) && ForeignKept(site, tape, w, after)
  {
    hide ObserveScoped, ObserveResources, Calm, ForeignKept;
    if site.scoped { ObserveScopedCalm(site, tape, w, n); } else { ObserveResourcesCalm(site, tape, w, n); }
  }

  lemma SaveCalm(site: Site, tape: Tape, w: Earth, n: int, r: Record)
    requires Calm(site, tape, w, n)
    ensures var (after, exit) := Save(site, tape, w, r);
      exit.Done? && Calm(site, tape, after, n) && ForeignKept(site, tape, w, after)
  {
    hide Tick, Claims, Honest, CalmLines;
    TickCalm(site, tape, w, n);
  }

  lemma CheckCalm(site: Site, tape: Tape, s: State)
    requires Calm(site, tape, s.w, s.r.owned) && Matches(site, s.w.kernel, s.r) && s.r.pending == ""
    ensures var (after, exit) := Check(site, tape, s);
      exit.Done? && Calm(site, tape, after, s.r.owned) && ForeignKept(site, tape, s.w, after)
  {
    hide Snapshot, Calm, ForeignKept, SnapshotOf, ProofOf, Claims;
    SnapshotCalm(site, tape, s.w, s.r.owned);
  }

  /** The planned command is not refused: what it removes is there, and what it adds
      is not there yet. */
  lemma CalmPossible(site: Site, k: Kernel, n: int, intent: string, line: string)
    requires |k.lines| == 3 && ValidPlan(site.plan) && Honest(site, k) && Shape(site, k, n) && 0 <= n <= 8
    requires (intent == "remove" && n > 0) || (intent == "add" && n < 8 && Renders(site, n, line))
    ensures Possible(site, k, intent, IndexOf(intent, n), line)
  {
    hide Claim, Claimed, Displays, Judge, RowIndex, Printed, Execute, CommandOf, ExactSteps, StepThing;
    var i := IndexOf(intent, n);
    PlanRuns(site, k, i, line, 0);
    assert |Claims(site.plan, k.lines, i)| == if i < n then 1 else 0;
    if intent == "remove" {
      var e := Claims(site.plan, k.lines, i)[0];
      assert Renders(site, i, e.line);
      ClaimedAre(site.plan, LinesOf(k.lines), i, e);
      ClaimBucket(site.plan, e);
      LineMembers(k.lines, e);
      assert Displays(site.marks, StepThing(site.plan, i), e);
      PresentIs(site, k, i, e);
      if i in RULE_STEPS { assert i in ExactSteps(site.plan, k); ExactMeans(site.plan, k, i); }
    } else if Present(site, k, i) {
      AbsentIs(site, k, i);
    }
  }

  lemma ExactMeans(p: DestinationPlan, k: Kernel, i: nat)
    requires i in ExactSteps(p, k)
    ensures Answers(k, CheckOf(p, i))
  {
  }

  lemma {:induction false} ClaimedAre(p: DestinationPlan, entries: seq<Entry>, i: nat, e: Entry)
    requires e in Claimed(p, entries, i)
    ensures e in entries && Claim(p, e) == i
    decreases |entries|
  {
    hide Claim;
    var n := |entries| - 1;
    if e in Claimed(p, entries[..n], i) { ClaimedAre(p, entries[..n], i, e); }
  }

  lemma PresentIs(site: Site, k: Kernel, i: nat, e: Entry)
    requires |k.lines| == 3 && i < 8 && e.bucket == StepBucket(i) && e.line in k.lines[e.bucket]
    requires Displays(site.marks, StepThing(site.plan, i), e)
    ensures Present(site, k, i)
  {
    hide Displays, StepThing;
    ThingBucket(site.plan, i);
    var m :| 0 <= m < |k.lines[e.bucket]| && k.lines[e.bucket][m] == e.line;
    assert Displays(site.marks, StepThing(site.plan, i), Entry(e.bucket, k.lines[e.bucket][m]));
  }

  lemma AbsentIs(site: Site, k: Kernel, i: nat)
    requires |k.lines| == 3 && i < 8 && ValidPlan(site.plan) && Present(site, k, i)
    ensures Claims(site.plan, k.lines, i) != []
  {
    hide Displays, StepThing, Claim;
    var b, t := StepBucket(i), StepThing(site.plan, i);
    ThingBucket(site.plan, i);
    var m :| 0 <= m < |k.lines[b]| && Displays(site.marks, t, Entry(b, k.lines[b][m]));
    var e := Entry(b, k.lines[b][m]);
    DisplayedAtPlace(site.plan, site.marks, i, e);
    LineMembers(k.lines, e);
    ClaimedHolds(site.plan, LinesOf(k.lines), e, i);
  }

  lemma StepCalm(site: Site, tape: Tape, w: Earth, n: int, intent: string)
    requires Calm(site, tape, w, n)
    requires (intent == "remove" && n > 0) || (intent == "add" && n < 8 && Renderable(site, tape, w.clock))
    ensures var (after, exit) := Run(site, tape, w, intent, IndexOf(intent, n));
      exit.Done? && Calm(site, tape, after, After(intent, n)) && ForeignKept(site, tape, w, after)
  {
    hide Claims, Renders, Disjoint, Claim, ForeignLines, Tick, Printed, CalmTape, LinesOf, Possible, Effect;
    var t := Tick(site, tape, w);
    TickCalm(site, tape, w, n);
    var i := IndexOf(intent, n);
    var c := tape(w.clock);
    CalmPossible(site, t.kernel, n, intent, c.prints(i));
    EffectSafe(site, t.kernel, intent, n, c.prints(i), c.pos);
    EffectCalmLines(site, t.kernel, intent, i, c.prints(i), c.pos);
  }

  /** A step's own line is planned; nothing foreign comes by adding or removing it. */
  lemma EffectCalmLines(site: Site, k: Kernel, intent: string, i: nat, line: string, pos: nat)
    requires |k.lines| == 3 && CalmLines(site, k.lines) && i < 8 && Possible(site, k, intent, i, line)
    ensures CalmLines(site, Effect(site, k, intent, i, line, pos).lines)
  {
    hide Claim, Disjoint, Possible, Effect, Displays, Judge, RowIndex, StepThing;
    EffectIs(site, k, intent, i, line, pos);
    var b, after := StepBucket(i), Effect(site, k, intent, i, line, pos).lines;
    if intent == "add" {
      assert Renders(site, i, line) by { PossibleRenders(site, k, i, line); }
      DisplayedAtPlace(site.plan, site.marks, i, Entry(b, line));
      forall e | e in LinesOf(after) && Claim(site.plan, e) < 0 ensures e in LinesOf(k.lines) {
        LineMembers(after, e);
        LineMembers(k.lines, e);
      }
    } else {
      TakenSubset(site.marks, k.lines[b], StepThing(site.plan, i));
      forall e | e in LinesOf(after) ensures e in LinesOf(k.lines) {
        LineMembers(after, e);
        LineMembers(k.lines, e);
      }
    }
  }

  lemma PossibleRenders(site: Site, k: Kernel, i: nat, line: string)
    requires |k.lines| == 3 && Possible(site, k, "add", i, line)
    ensures Renders(site, i, line)
  {
  }

  lemma {:induction false} TakenSubset(marks: (string, string) -> seq<MarkUse>, lines: seq<string>, t: Thing)
    ensures forall line :: line in TakeOne(marks, lines, t) ==> line in lines
    decreases |lines|
  {
    hide Displays;
    if lines != [] {
      TakenSubset(marks, lines[1..], t);
      assert forall line :: line in lines <==> line == lines[0] || line in lines[1..];
    }
  }

  lemma LineMembers(lines: seq<seq<string>>, e: Entry)
    requires |lines| == 3
    ensures e in LinesOf(lines) <==> e.bucket < 3 && e.line in lines[e.bucket]
  {
    if e.bucket < 3 && e.line in lines[e.bucket] {
      var k :| 0 <= k < |lines[e.bucket]| && lines[e.bucket][k] == e.line;
      assert Tag(e.bucket, lines[e.bucket])[k] == e;
    }
  }

  /** Good and calm, with nothing pending. */
  ghost predicate Ready(site: Site, tape: Tape, s: State) {
    && Good(site, s) && s.r.pending == "" && s.r.snapshot.Sha?
    && Calm(site, tape, s.w, s.r.owned)
  }

  /** The step can be taken: one is left to remove, or one to add. */
  ghost predicate CanStep(site: Site, tape: Tape, s: State, intent: string) {
    (intent == "remove" && s.r.owned > 0) || (intent == "add" && s.r.owned < 8 && Renderable(site, tape, s.w.clock))
  }

  /** The checks a change makes before it records its intent. */
  lemma ChangeStarts(site: Site, tape: Tape, s: State, index: int)
    requires Ready(site, tape, s)
    ensures var (w1, checked) := Check(site, tape, s);
      var (w2, seen) := Witness(site, tape, w1, index);
      && checked.Done? && seen.Got? && Sha(seen.value.whole) == s.r.snapshot && CountsMatch(seen.value.counts, s.r.owned)
      && Calm(site, tape, w2, s.r.owned) && ForeignKept(site, tape, s.w, w2)
  {
    hide Check, Witness, Matches, Safe, Shape, SameView, Printed, ProofOf, SnapshotOf, Untouched, Calm, ForeignKept;
    var n := s.r.owned;
    MatchesOwned(site, s.w.kernel, s.r);
    var w1 := Check(site, tape, s).0;
    CheckCalm(site, tape, s);
    CheckSafe(site, tape, s);
    var w2 := Witness(site, tape, w1, index).0;
    WitnessCalm(site, tape, w1, n, index);
    SafePrinted(site, w1);
    WitnessSound(site, tape, w1, index);
    CalmParts(site, tape, w1, n);
    SnapshotMatches(site, w1.kernel, s.r);
    CalmAfter(site, tape, s.w, w1, w2);
  }

  lemma RenderableLater(site: Site, tape: Tape, a: Earth, b: Earth)
    requires ForeignKept(site, tape, a, b)
    ensures b.clock >= a.clock && (Renderable(site, tape, a.clock) ==> Renderable(site, tape, b.clock))
  {
  }

  /** In calm surroundings every change, addition or removal, goes through. */
  lemma ChangeCompletes(site: Site, tape: Tape, s: State, intent: string)
    requires Ready(site, tape, s) && CanStep(site, tape, s, intent)
    ensures var (after, exit) := Change(site, tape, s, intent);
      exit.Done? && Ready(site, tape, after) && ForeignKept(site, tape, s.w, after.w)
      && after.r.owned == After(intent, s.r.owned)
      && after.w.issued == s.w.issued + [Issue(intent, IndexOf(intent, s.r.owned))]
  {
    hide Check, Witness, Save, Run, Snapshot, Matches, Safe, Shape, SameView, Printed, ProofOf, SnapshotOf, Untouched,
      Calm, ForeignKept, Renderable;
    var n, index, m := s.r.owned, IndexOf(intent, s.r.owned), After(intent, s.r.owned);
    MatchesOwned(site, s.w.kernel, s.r);
    ChangeSafe(site, tape, s, intent);
    ChangeStarts(site, tape, s, index);
    var w1 := Check(site, tape, s).0;
    var (w2, seen) := Witness(site, tape, w1, index);
    var intended := Intend(site, s.r, intent, seen.value.residual);
    var w3 := Save(site, tape, w2, intended).0;
    SaveCalm(site, tape, w2, n, intended);
    CalmAfter(site, tape, s.w, w2, w3);
    RenderableLater(site, tape, s.w, w3);
    var w4 := Run(site, tape, w3, intent, index).0;
    StepCalm(site, tape, w3, n, intent);
    var (w5, again) := Snapshot(site, tape, w4, m);
    SnapshotCalm(site, tape, w4, m);
    var committed := Commit(intended, m, again.value);
    var w6 := Save(site, tape, w5, committed).0;
    SaveCalm(site, tape, w5, m, committed);
    CalmThroughout(site, tape, [s.w, w2, w3, w4, w5, w6]);
    assert Change(site, tape, s, intent) == (State(w6, committed), Done);
  }

  lemma SnapshotMatches(site: Site, k: Kernel, r: Record)
    requires |k.lines| == 3 && Matches(site, k, r) && r.pending == "" && r.snapshot.Sha?
    ensures r.snapshot == Sha(SnapshotOf(site, k))
  {
  }

  lemma {:induction false} RemoveAllCompletes(site: Site, tape: Tape, s: State)
    requires Ready(site, tape, s) && s.r.owned >= 0
    ensures var (after, exit) := RemoveAll(site, tape, s);
      exit.Done? && after.r.owned == 0 && Calm(site, tape, after.w, 0) && ForeignKept(site, tape, s.w, after.w)
    decreases s.r.owned
  {
    hide Change, Ready, ForeignKept, Calm;
    assert s.r.owned == 0 ==> Calm(site, tape, s.w, 0) by { ReadyCalm(site, tape, s); }
    if s.r.owned > 0 {
      var (next, exit) := Change(site, tape, s, "remove");
      ChangeCompletes(site, tape, s, "remove");
      RemoveAllCompletes(site, tape, next);
      CalmAfter(site, tape, s.w, next.w, RemoveAll(site, tape, next).0.w);
    } else {
      ForeignKeptSelf(site, tape, s.w);
    }
  }

  lemma ReadyCalm(site: Site, tape: Tape, s: State)
    requires Ready(site, tape, s)
    ensures Calm(site, tape, s.w, s.r.owned)
  {
  }

  lemma ForeignKeptSelf(site: Site, tape: Tape, w: Earth)
    ensures ForeignKept(site, tape, w, w)
  {
  }

  /** The two outcomes a pending record allows are told apart by the counters. */
  lemma ReconcileCompletes(site: Site, tape: Tape, s: State, n: int)
    requires Good(site, s) && s.r.pending != "" && Calm(site, tape, s.w, n)
    ensures var (after, exit) := Reconcile(site, tape, s);
      exit.Done? && Ready(site, tape, after) && ForeignKept(site, tape, s.w, after.w)
  {
    hide Witness, Save, Safe, Calm, ForeignKept, SnapshotOf, ProofOf, Claims, Printed, Shape, Untouched;
    ReconcileSafe(site, tape, s);
    MatchesOwned(site, s.w.kernel, s.r);
    var index := IndexOf(s.r.pending, s.r.owned);
    var (w1, seen) := Witness(site, tape, s.w, index);
    CalmParts(site, tape, s.w, n);
    WitnessSound(site, tape, s.w, index);
    WitnessCalm(site, tape, s.w, n, index);
    assert Shape(site, s.w.kernel, s.r.owned) || Shape(site, s.w.kernel, After(s.r.pending, s.r.owned));
    var owned := Outcome(seen.value.counts, s.r.pending, s.r.owned).value;
    ShapeOnce(site, s.w.kernel, n, owned);
    var committed := Commit(s.r, owned, seen.value.whole);
    SaveCalm(site, tape, w1, n, committed);
    CalmAfter(site, tape, s.w, w1, Save(site, tape, w1, committed).0);
  }

  /** The recovery every guardian and supervisor performs: resolve, then remove.
      From any good state it completes; the removals go out in strictly
      descending plan order, nothing planned is left, and if other writers are
      still then every foreign line is exactly as before. */
  lemma RecoveryCompletes(site: Site, tape: Tape, s: State, n: int)
    requires Good(site, s) && Calm(site, tape, s.w, n)
    ensures var (resolved, first) := Resolve(site, tape, s);
      var (after, second) := Recover(site, tape, resolved);
      && first.Done? && second.Done?
      && after.r.owned == 0
      && Shape(site, after.w.kernel, 0)
      && after.w.issued == s.w.issued + Descending(n)
      && (StillTape(tape, s.w.clock) ==>
            ForeignLines(site.plan, after.w.kernel.lines) == ForeignLines(site.plan, s.w.kernel.lines))
  {
    hide Check, Reconcile, RemoveAll, Safe, Matches, Calm, ForeignLines, StillTape, Shape, ForeignKept;
    var (resolved, first) := Resolve(site, tape, s);
    ResolveSafe(site, tape, s);
    CalmParts(site, tape, s.w, n);
    if s.r.pending != "" {
      ReconcileCompletes(site, tape, s, n);
    } else {
      MatchesOwned(site, s.w.kernel, s.r);
      ShapeOnce(site, s.w.kernel, n, s.r.owned);
      CheckCalm(site, tape, s);
    }
    MatchesOwned(site, resolved.w.kernel, resolved.r);
    ResolvedLength(site, tape, s, n);
    var (w1, checked) := Check(site, tape, resolved);
    CheckCalm(site, tape, resolved);
    CheckSafe(site, tape, resolved);
    CheckFrame(site, tape, resolved);
    var ready := State(w1, resolved.r);
    var (after, second) := RemoveAll(site, tape, ready);
    RemoveAllSafe(site, tape, ready);
    if resolved.r.snapshot.Sha? {
      RemoveAllCompletes(site, tape, ready);
    } else {
      FreshRecord(site, resolved.w.kernel, resolved.r);
      ForeignKeptSelf(site, tape, w1);
      NothingToRemove(site, tape, ready);
      assert after == ready && resolved.r.owned == 0;
    }
    CalmParts(site, tape, after.w, 0);
    CalmAfter(site, tape, s.w, resolved.w, w1);
    CalmAfter(site, tape, s.w, w1, after.w);
    assert ForeignKept(site, tape, s.w, after.w);
    ForeignUnchanged(site, tape, s.w, after.w);
  }

  lemma ForeignUnchanged(site: Site, tape: Tape, a: Earth, b: Earth)
    requires ForeignKept(site, tape, a, b)
    ensures StillTape(tape, a.clock) ==> ForeignLines(site.plan, b.kernel.lines) == ForeignLines(site.plan, a.kernel.lines)
  {
  }

  lemma NothingToRemove(site: Site, tape: Tape, s: State)
    requires s.r.owned == 0
    ensures RemoveAll(site, tape, s) == (s, Done)
  {
  }

  lemma FreshRecord(site: Site, k: Kernel, r: Record)
    requires |k.lines| == 3 && Matches(site, k, r) && !r.snapshot.Sha?
    ensures r.owned == 0
  {
  }

  lemma ResolvedLength(site: Site, tape: Tape, s: State, n: int)
    requires Good(site, s) && Calm(site, tape, s.w, n) && Resolve(site, tape, s).1.Done?
    ensures var resolved := Resolve(site, tape, s).0;
      resolved.r.owned == n && Calm(site, tape, resolved.w, n) && ForeignKept(site, tape, s.w, resolved.w)
  {
    hide Check, Reconcile, Safe, Matches, Calm, Shape, ForeignKept;
    CalmParts(site, tape, s.w, n);
    if s.r.pending != "" {
      ReconcileCompletes(site, tape, s, n);
      ReconcileExact(site, tape, s);
      var resolved := Reconcile(site, tape, s).0;
      ReadyCalm(site, tape, resolved);
      ResolveSafe(site, tape, s);
      MatchesOwned(site, resolved.w.kernel, resolved.r);
      SameViewBack(site, s.w.kernel, resolved.w.kernel, resolved.r.owned);
      ShapeOnce(site, s.w.kernel, n, resolved.r.owned);
    } else {
      MatchesOwned(site, s.w.kernel, s.r);
      ShapeOnce(site, s.w.kernel, n, s.r.owned);
      CheckCalm(site, tape, s);
    }
  }

  /** After a death anywhere in any run, reopening and recovering in calm
      surroundings leaves no planned resource behind, and where the other writers
      are still every line of theirs is as before. */
  lemma EveryCrashRecovers(site: Site, tape: Tape, start: System, events: seq<Event>)
    requires Fresh(site, start) && ValidPlan(site.plan)
    requires var end := Play(site, tape, start, events);
      end.session.None? && CalmLines(site, end.w.kernel.lines) && CalmTape(site, tape, end.w.clock)
    ensures var end := Play(site, tape, start, events);
      var recovered := Play(site, tape, end, [OnOpen, OnResolve, OnRecover]);
      && Shape(site, recovered.w.kernel, 0)
      && recovered.session.Some? && recovered.session.value.owned == 0
      && (exists n :: 0 <= n <= 8 && Shape(site, end.w.kernel, n) && recovered.w.issued == end.w.issued + Descending(n))
      && (StillTape(tape, end.w.clock) ==>
            ForeignLines(site.plan, recovered.w.kernel.lines) == ForeignLines(site.plan, end.w.kernel.lines))
  {
    hide Claims, SnapshotOf, ProofOf, Renders, Printed, CalmLines, CalmTape, Resolve, Recover, Open, Calm;
    var end := Play(site, tape, start, events);
    assert SafeSystem(site, start);
    EveryRunSafe(site, tape, start, events);
    OpenMatches(site, end.w);
    var r := Open(site, end.w.disk).value;
    var s := State(end.w, r);
    MatchesOwned(site, end.w.kernel, r);
    var n := if Shape(site, end.w.kernel, r.owned) then r.owned else After(r.pending, r.owned);
    assert Shape(site, end.w.kernel, n);
    assert Calm(site, tape, end.w, n) by { CalmFrom(site, tape, end.w, n); }
    RecoveryCompletes(site, tape, s, n);
    var resolved := Resolve(site, tape, s).0;
    assert Play(site, tape, end, [OnOpen, OnResolve, OnRecover]) == Leave(Recover(site, tape, resolved)) by {
      PlayThree(site, tape, end, OnOpen, OnResolve, OnRecover);
      assert Advance(site, tape, end, OnOpen) == System(end.w, Some(r));
      assert Advance(site, tape, System(end.w, Some(r)), OnResolve) == System(resolved.w, Some(resolved.r));
    }
  }

  /** The cleanup of a safe world in calm surroundings succeeds. */
  lemma CleanupCompletes(site: Site, tape: Tape, w: Earth)
    requires Safe(site, w) && ValidPlan(site.plan) && CalmLines(site, w.kernel.lines) && CalmTape(site, tape, w.clock)
    ensures var (after, exit) := Cleanup(site, tape, w);
      exit.Done? && Safe(site, after) && Shape(site, after.kernel, 0)
  {
    hide Claims, SnapshotOf, ProofOf, Renders, Printed, CalmLines, CalmTape, Resolve, Recover, Open, Calm;
    OpenMatches(site, w);
    var r := Open(site, w.disk).value;
    MatchesOwned(site, w.kernel, r);
    var n := if Shape(site, w.kernel, r.owned) then r.owned else After(r.pending, r.owned);
    assert Shape(site, w.kernel, n);
    CalmFrom(site, tape, w, n);
    RecoveryCompletes(site, tape, State(w, r), n);
    CleanupEmpties(site, tape, w);
  }

  lemma CalmFrom(site: Site, tape: Tape, w: Earth, n: int)
    requires ValidPlan(site.plan) && Honest(site, w.kernel) && Shape(site, w.kernel, n) && 0 <= n <= 8
    requires CalmLines(site, w.kernel.lines) && CalmTape(site, tape, w.clock)
    ensures Calm(site, tape, w, n)
  {
  }

  lemma PlayThree(site: Site, tape: Tape, sys: System, a: Event, b: Event, c: Event)
    ensures Play(site, tape, sys, [a, b, c])
         == Advance(site, tape, Advance(site, tape, Advance(site, tape, sys, a), b), c)
  {
    hide Advance;
    var s1 := Advance(site, tape, sys, a);
    var s2 := Advance(site, tape, s1, b);
    assert [a, b, c][1..] == [b, c] && [b, c][1..] == [c] && [c][1..] == [];
    assert Play(site, tape, s1, [b, c]) == Play(site, tape, s2, [c]);
  }
}
