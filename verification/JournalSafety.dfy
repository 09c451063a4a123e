/** Safety of the write-ahead controller over every run: whatever fails and
    wherever the process dies, the record on disk and the kernel agree up to the
    one pending step, and no command is issued on an unexpected footprint. */
module JournalSafety {
  import opened Text
  import opened Plan
  import opened Observation
  import opened Resources
  import opened Scoped
  import opened Footprints
  import opened KernelState
  import opened Tools
  import opened PlanMeaning
  import opened Journal

  // ---- what an observation of a kernel must show ----

  function RowsOfKernel(site: Site, k: Kernel): Rows
    requires |k.lines| == 3
  {
    seq(8, i requires 0 <= i < 8 => RowTexts(Claims(site.plan, k.lines, i)))
  }

  function Joined(lines: seq<seq<string>>): seq<string>
    requires |lines| == 3
  {
    [JoinLines(lines[0]), JoinLines(lines[1]), JoinLines(lines[2])]
  }

  /** The snapshot digest of a kernel, and the digest that leaves step i out. */
  function SnapshotOf(site: Site, k: Kernel): Digest
    requires |k.lines| == 3
  {
    if site.scoped then Footprint(RowsOfKernel(site, k)) else Texts(Listing(k.lines))
  }

  function ProofOf(site: Site, k: Kernel, i: int): Digest
    requires |k.lines| == 3
  {
    if site.scoped then Excluding(RowsOfKernel(site, k), i) else Texts(Joined(ForeignLines(site.plan, k.lines)))
  }

  /** Exactly the first n steps are present, once each. */
  predicate Shape(site: Site, k: Kernel, n: int)
    requires |k.lines| == 3
  {
    forall i :: 0 <= i < 8 ==> |Claims(site.plan, k.lines, i)| == if i < n then 1 else 0
  }

  /** Two kernels the controller cannot and need not tell apart. */
  predicate SameView(site: Site, a: Kernel, b: Kernel)
    requires |a.lines| == 3 && |b.lines| == 3
  {
    && a.rules == b.rules
    && SameClaims(site.plan, a.lines, b.lines)
    && (!site.scoped ==> a.lines == b.lines)
  }

  predicate Untouched(site: Site, a: Earth, b: Earth) {
    && SameView(site, a.kernel, b.kernel)
    && (Printed(a.kernel.lines) ==> Printed(b.kernel.lines))
    && a.disk == b.disk && a.issued == b.issued
  }

  lemma SameViewDigests(site: Site, a: Kernel, b: Kernel, i: int)
    requires |a.lines| == 3 && |b.lines| == 3 && SameView(site, a, b)
    ensures SnapshotOf(site, a) == SnapshotOf(site, b)
    ensures ProofOf(site, a, i) == ProofOf(site, b, i)
  {
    hide Claims, RowTexts, Listing, ForeignLines;
    assert RowsOfKernel(site, a) == RowsOfKernel(site, b);
  }

  lemma TickUntouched(site: Site, tape: Tape, w: Earth)
    ensures Untouched(site, w, Tick(site, tape, w))
  {
  }

  lemma ClassifiedKernel(site: Site, k: Kernel)
    requires Printed(k.lines)
    ensures ClassifyScoped(site.plan, ContextOf(site, k), Listing(k.lines)).Ok? ==>
      var s := ClassifyScoped(site.plan, ContextOf(site, k), Listing(k.lines)).value;
      && s.resources == RowsOfKernel(site, k)
      && s.digest == Footprint(RowsOfKernel(site, k))
      && forall i :: 0 <= i < 8 ==> s.counts[i] == |Claims(site.plan, k.lines, i)|
  {
    hide ClassifyScoped, Claims, RowTexts, Listing, Entries, Claimed;
    ClassifyClean(site.plan, ContextOf(site, k), Listing(k.lines));
    forall i | 0 <= i < 8
      ensures Claimed(site.plan, Entries(Listing(k.lines)), i) == Claims(site.plan, k.lines, i)
    {
      ListedClaims(site.plan, k.lines, i);
    }
  }

  lemma ClassifiedResources(site: Site, k: Kernel)
    requires Printed(k.lines)
    ensures ClassifyResources(site.plan, ContextOf(site, k), Listing(k.lines)).Ok? ==>
      var s := ClassifyResources(site.plan, ContextOf(site, k), Listing(k.lines)).value;
      && s.whole == Texts(Listing(k.lines))
      && s.residual == Texts(Joined(ForeignLines(site.plan, k.lines)))
      && forall i :: 0 <= i < 8 ==> s.counts[i] == |Claims(site.plan, k.lines, i)|
  {
    hide Claims, Entries, Claimed, CountEntries, Unclaimed, Judge, JoinLines, SplitLines;
    var p, out := site.plan, Listing(k.lines);
    CountsAreClaims(p, ContextOf(site, k), Entries(out));
    forall i | 0 <= i < 8 ensures Claimed(p, Entries(out), i) == Claims(p, k.lines, i) {
      ListedClaims(p, k.lines, i);
    }
    ResidualText(p, 0, k.lines[0]);
    ResidualText(p, 1, k.lines[1]);
    ResidualText(p, 2, k.lines[2]);
    assert ResidualBefore(p, out, 1) == [JoinLines(Unclaimed(p, 0, SplitLines(out[0])))];
    assert ResidualBefore(p, out, 2) == ResidualBefore(p, out, 1) + [JoinLines(Unclaimed(p, 1, SplitLines(out[1])))];
    assert ResidualBefore(p, out, 3) == Joined(ForeignLines(p, k.lines));
  }

  /** What step i shows in these outputs. */
  function Shows(p: DestinationPlan, outputs: seq<string>, i: nat): seq<string> {
    RowTexts(Claimed(p, Entries(outputs), i))
  }

  predicate ShowSame(p: DestinationPlan, first: seq<string>, second: seq<string>) {
    forall i :: 0 <= i < 8 ==> Shows(p, second, i) == Shows(p, first, i)
  }

  /** Whatever anybody did between the two passes: the second is accepted if and only
      if it is clean itself and shows every step the very lines of the first. */
  lemma ConfirmedExactly(p: DestinationPlan, a: Context, first: seq<string>, b: Context, second: seq<string>)
    requires ClassifyScoped(p, a, first).Ok?
    ensures Confirmed(ClassifyScoped(p, a, first).value, ClassifyScoped(p, b, second)).Got? <==>
      |second| == 3 && Clean(p, b, Entries(second)) && ShowSame(p, first, second)
  {
    hide ClassifyScoped, Clean, RowTexts, Claimed, Entries;
    ClassifyClean(p, a, first);
    ClassifyClean(p, b, second);
    var x, y := ClassifyScoped(p, a, first), ClassifyScoped(p, b, second);
    if y.Ok? {
      var rows, more := x.value.resources, y.value.resources;
      forall i | 0 <= i < 8 ensures rows[i] == Shows(p, first, i) && more[i] == Shows(p, second, i) {
      }
      SameRows(rows, more);
      if ShowSame(p, first, second) {
        forall i | 0 <= i < 8 ensures more[i] == rows[i] { assert Shows(p, second, i) == Shows(p, first, i); }
      } else {
        var i :| 0 <= i < 8 && Shows(p, second, i) != Shows(p, first, i);
        assert more[i] != rows[i];
      }
    }
  }

  lemma SameRows(a: seq<seq<string>>, b: seq<seq<string>>)
    requires |a| == |b| == 8
    ensures Footprint(a) == Footprint(b) <==> forall i :: 0 <= i < 8 ==> b[i] == a[i]
  {
    if forall i :: 0 <= i < 8 ==> b[i] == a[i] { assert a == b; }
  }

  /** In a strict namespace the second listing must be the first, word for word. */
  lemma RepeatedExactly(p: DestinationPlan, ctx: Context, first: seq<string>, after: seq<string>)
    requires ClassifyResources(p, ctx, first).Ok?
    ensures Repeated(ClassifyResources(p, ctx, first).value, after).Got? <==> after == first
  {
    hide CountEntries, ResidualBefore;
  }

  lemma ObserveScopedSound(site: Site, tape: Tape, w: Earth)
    requires Printed(w.kernel.lines)
    ensures var (after, seen) := ObserveScoped(site, tape, w);
      && Untouched(site, w, after)
      && (seen.Got? ==>
           && seen.value.resources == RowsOfKernel(site, w.kernel)
           && seen.value.digest == Footprint(RowsOfKernel(site, w.kernel))
           && forall i :: 0 <= i < 8 ==> seen.value.counts[i] == |Claims(site.plan, w.kernel.lines, i)|)
  {
    hide Tick, Claims, Listing, ClassifyScoped, Printed, RowTexts;
    var w1 := Capture(site, tape, w).0;
    var w2 := Capture(site, tape, w1).0;
    TickUntouched(site, tape, w);
    TickUntouched(site, tape, w1);
    ClassifiedKernel(site, w2.kernel);
    assert RowsOfKernel(site, w.kernel) == RowsOfKernel(site, w2.kernel);
  }

  lemma ObserveResourcesSound(site: Site, tape: Tape, w: Earth)
    requires Printed(w.kernel.lines) && !site.scoped
    ensures var (after, seen) := ObserveResources(site, tape, w);
      && Untouched(site, w, after)
      && (seen.Got? ==>
           && seen.value.whole == SnapshotOf(site, w.kernel)
           && seen.value.residual == ProofOf(site, w.kernel, 0)
           && forall i :: 0 <= i < 8 ==> seen.value.counts[i] == |Claims(site.plan, w.kernel.lines, i)|)
  {
    hide Tick, Claims, Listing, ClassifyResources, Printed, ForeignLines;
    var w1 := Capture(site, tape, w).0;
    TickUntouched(site, tape, w);
    TickUntouched(site, tape, w1);
    ClassifiedResources(site, w1.kernel);
  }

  /** `snapshot` and `witness` report the kernel and change nothing. */
  lemma SnapshotSound(site: Site, tape: Tape, w: Earth, owned: int)
    requires Printed(w.kernel.lines)
    ensures var (after, seen) := Snapshot(site, tape, w, owned);
      && Untouched(site, w, after)
      && (seen.Got? ==> seen.value == SnapshotOf(site, w.kernel))
      && (seen.Got? && site.scoped ==> Shape(site, w.kernel, owned))
  {
    hide Claims, ObserveScoped, RowTexts, Listing, Tick, Printed;
    if site.scoped { ObserveScopedSound(site, tape, w); } else { TickUntouched(site, tape, w); }
  }

  lemma WitnessSound(site: Site, tape: Tape, w: Earth, index: int)
    requires Printed(w.kernel.lines)
    ensures var (after, seen) := Witness(site, tape, w, index);
      && Untouched(site, w, after)
      && (seen.Got? ==>
           && seen.value.whole == SnapshotOf(site, w.kernel)
           && seen.value.residual == ProofOf(site, w.kernel, index)
           && forall n :: CountsMatch(seen.value.counts, n) <==> Shape(site, w.kernel, n))
  {
    hide Claims, ObserveScoped, ObserveResources, RowTexts, Listing, Printed, ForeignLines;
    if site.scoped { ObserveScopedSound(site, tape, w); } else { ObserveResourcesSound(site, tape, w); }
  }

  lemma ShapeOnce(site: Site, k: Kernel, m: int, n: int)
    requires |k.lines| == 3 && Shape(site, k, m) && Shape(site, k, n)
    requires 0 <= m <= 8 && 0 <= n <= 8
    ensures m == n
  {
    hide Claims;
    var low := if m < n then m else n;
    assert low < 8 ==> (|Claims(site.plan, k.lines, low)| == if low < m then 1 else 0);
  }

  // ---- the invariant ----

  /** The planned lines in the kernel are ones the classifiers recognise. */
  predicate Honest(site: Site, k: Kernel)
    requires |k.lines| == 3
  {
    && Printed(k.lines)
    && forall i :: 0 <= i < 8 && Claims(site.plan, k.lines, i) != [] ==>
         && Renders(site, i, Claims(site.plan, k.lines, i)[0].line)
         && (i in RULE_STEPS ==> i in ExactSteps(site.plan, k))
  }

  /** k == Owned without an intent, k in {Owned, Owned+1} for a pending add,
      k in {Owned-1, Owned} for a pending remove, k being the kernel's prefix. */
  predicate Tracks(site: Site, k: Kernel, r: Record)
    requires |k.lines| == 3
  {
    && 0 <= r.owned <= PLAN_LENGTH
    && match r.pending
       case "" => Shape(site, k, r.owned)
       case "add" => r.owned < PLAN_LENGTH && (Shape(site, k, r.owned) || Shape(site, k, r.owned + 1))
       case "remove" => r.owned > 0 && (Shape(site, k, r.owned) || Shape(site, k, r.owned - 1))
       case _ => false
  }

  /** The digests in a record are those of the kernel. */
  predicate Faithful(site: Site, k: Kernel, r: Record)
    requires |k.lines| == 3
  {
    if r.pending == "" then
      && r.proof == Empty
      && if r.snapshot == Empty then r.owned == 0 else r.snapshot == Sha(SnapshotOf(site, k))
    else
      && r.snapshot.Sha?
      && r.proof == Sha(ProofOf(site, k, IndexOf(r.pending, r.owned)))
  }

  predicate Matches(site: Site, k: Kernel, r: Record)
    requires |k.lines| == 3
  {
    && r.version == (if site.scoped then 3 else 2) && r.ns == site.ns && r.boot == site.boot && r.plan == site.plan
    && Tracks(site, k, r)
    && Faithful(site, k, r)
  }

  predicate Safe(site: Site, w: Earth) {
    && Honest(site, w.kernel)
    && match w.disk
       case None => Shape(site, w.kernel, 0)
       case Some(r) => Matches(site, w.kernel, r) && r.snapshot.Sha?
  }

  lemma SameViewShape(site: Site, a: Kernel, b: Kernel, n: int)
    requires |a.lines| == 3 && |b.lines| == 3 && SameView(site, a, b) && Shape(site, a, n)
    ensures Shape(site, b, n)
  {
    hide Claims;
  }

  lemma SameViewMatches(site: Site, a: Kernel, b: Kernel, r: Record)
    requires |a.lines| == 3 && |b.lines| == 3 && SameView(site, a, b) && Matches(site, a, r)
    ensures Matches(site, b, r)
  {
    hide SameView, Shape, SnapshotOf, ProofOf;
    SameViewDigests(site, a, b, IndexOf(r.pending, r.owned));
    forall n | Shape(site, a, n) ensures Shape(site, b, n) { SameViewShape(site, a, b, n); }
  }

  lemma SameViewHonest(site: Site, a: Kernel, b: Kernel)
    requires |a.lines| == 3 && |b.lines| == 3 && SameView(site, a, b) && Honest(site, a) && Printed(b.lines)
    ensures Honest(site, b)
  {
    hide Claims, Renders, Printed;
  }

  lemma UntouchedSafe(site: Site, a: Earth, b: Earth)
    requires Untouched(site, a, b) && Safe(site, a)
    ensures Safe(site, b)
  {
    hide Honest, Matches, Shape, SameView, Printed;
    HonestPrinted(site, a.kernel);
    SameViewHonest(site, a.kernel, b.kernel);
    if a.disk.None? { SameViewShape(site, a.kernel, b.kernel, 0); } else { SameViewMatches(site, a.kernel, b.kernel, a.disk.value); }
  }

  lemma UntouchedMatches(site: Site, a: Earth, b: Earth, r: Record)
    requires Untouched(site, a, b) && Matches(site, a.kernel, r)
    ensures Matches(site, b.kernel, r)
  {
    SameViewMatches(site, a.kernel, b.kernel, r);
  }

  lemma UntouchedShape(site: Site, a: Earth, b: Earth, n: int)
    requires Untouched(site, a, b) && Shape(site, a.kernel, n)
    ensures Shape(site, b.kernel, n)
  {
    SameViewShape(site, a.kernel, b.kernel, n);
  }

  /** Every safe record is accepted unchanged by the same mode's decoder. */
  lemma SafeRecordDecodes(site: Site, k: Kernel, r: Record)
    requires |k.lines| == 3 && ValidPlan(site.plan)
    requires Matches(site, k, r) && r.snapshot.Sha?
    ensures Decode(site, r) == Some(r)
  {
    hide Claims, SnapshotOf, ProofOf;
  }

  // ---- one change ----

  /** Acting on step `index` of a kernel that holds `owned` steps. */
  lemma EffectSafe(site: Site, k: Kernel, intent: string, owned: int, line: string, pos: nat)
    requires |k.lines| == 3 && Honest(site, k)
    requires intent == "add" || intent == "remove"
    requires 0 <= owned <= 8 && 0 <= After(intent, owned) <= 8
    requires Shape(site, k, owned)
    requires Possible(site, k, intent, IndexOf(intent, owned), line)
    ensures var after := Effect(site, k, intent, IndexOf(intent, owned), line, pos);
      && Honest(site, after)
      && Shape(site, after, After(intent, owned))
      && ProofOf(site, after, IndexOf(intent, owned)) == ProofOf(site, k, IndexOf(intent, owned))
      && ForeignLines(site.plan, after.lines) == ForeignLines(site.plan, k.lines)
  {
    hide Claims, Renders, Added, Removed, ForeignLines, RowTexts, Printed, Execute, CommandOf, ExactSteps, Present;
    var i := IndexOf(intent, owned);
    var after := Effect(site, k, intent, i, line, pos);
    EffectIs(site, k, intent, i, line, pos);
    assert |Claims(site.plan, k.lines, i)| == if i < owned then 1 else 0;
    if intent == "add" {
      AddedClaims(site, k, i, line, pos);
    } else {
      RemovedClaims(site, k, i);
    }
    ExactAfter(site, k, i, line, pos);
    assert RowsOfKernel(site, after)[i := []] == RowsOfKernel(site, k)[i := []];
  }

  /** What the command line does is the step. */
  lemma EffectIs(site: Site, k: Kernel, intent: string, i: nat, line: string, pos: nat)
    requires |k.lines| == 3 && i < 8 && Possible(site, k, intent, i, line)
    ensures ValidPlan(site.plan)
    ensures Effect(site, k, intent, i, line, pos) == if intent == "add" then Added(site.plan, k, i, line, pos) else Removed(site, k, i)
    ensures intent != "add" ==> Present(site, k, i)
  {
    hide Execute, Added, Removed, Present;
    if !ValidPlan(site.plan) {
      NoCommands(site.plan, intent, i);
      RefusedEmpty(site, k, line);
    } else {
      PlanRuns(site, k, i, line, pos);
      PlanRuns(site, k, i, line, 0);
      assert CommandOf(site.plan, intent, i) == CommandOf(site.plan, if intent == "add" then "add" else "remove", i);
    }
  }

  lemma NoCommands(p: DestinationPlan, intent: string, i: int)
    requires !ValidPlan(p)
    ensures CommandOf(p, intent, i) == []
  {
  }

  lemma RefusedEmpty(site: Site, k: Kernel, line: string)
    requires |k.lines| == 3
    ensures Execute(site.marks, k, [], line, 0).None?
  {
  }

  /** Running the pending command from a recorded intent. */
  lemma RunSafe(site: Site, tape: Tape, w: Earth, r: Record)
    requires Safe(site, w) && w.disk == Some(r)
    requires r.pending == "add" || r.pending == "remove"
    requires Shape(site, w.kernel, r.owned)
    ensures var (after, exit) := Run(site, tape, w, r.pending, IndexOf(r.pending, r.owned));
      && Safe(site, after) && after.disk == Some(r)
      && after.issued == w.issued + [Issue(r.pending, IndexOf(r.pending, r.owned))]
      && (exit.Done? ==> Shape(site, after.kernel, After(r.pending, r.owned)))
  {
    hide Claims, Renders, SnapshotOf, ProofOf, Effect, Printed, Tick, Possible;
    var t := Tick(site, tape, w);
    TickUntouched(site, tape, w);
    UntouchedSafe(site, w, t);
    UntouchedShape(site, w, t, r.owned);
    var c, i := tape(w.clock), IndexOf(r.pending, r.owned);
    if i >= 0 && Possible(site, t.kernel, r.pending, i, c.prints(i)) {
      EffectSafe(site, t.kernel, r.pending, r.owned, c.prints(i), c.pos);
    }
  }

  lemma SaveSafe(site: Site, tape: Tape, w: Earth, r: Record)
    requires Safe(site, w) && Matches(site, w.kernel, r) && r.snapshot.Sha?
    ensures var (after, exit) := Save(site, tape, w, r);
      && Safe(site, after) && SameView(site, w.kernel, after.kernel) && after.issued == w.issued
      && (exit.Done? ==> after.disk == Some(r))
      && (after.disk == w.disk || after.disk == Some(r))
  {
    hide Tick, Matches, Honest, Shape;
    var t := Tick(site, tape, w);
    TickUntouched(site, tape, w);
    UntouchedSafe(site, w, t);
    UntouchedMatches(site, w, t, r);
  }

  lemma CheckSafe(site: Site, tape: Tape, s: State)
    requires Safe(site, s.w) && Matches(site, s.w.kernel, s.r)
    ensures var (after, exit) := Check(site, tape, s);
      && Untouched(site, s.w, after) && Safe(site, after) && Matches(site, after.kernel, s.r)
      && (exit.Done? ==> s.r.pending == "")
  {
    hide Snapshot, Claims, Matches, Honest, Shape;
    assert Printed(s.w.kernel.lines) by { assert Honest(site, s.w.kernel); HonestPrinted(site, s.w.kernel); }
    SnapshotSound(site, tape, s.w, s.r.owned);
    UntouchedSafe(site, s.w, Check(site, tape, s).0);
    UntouchedMatches(site, s.w, Check(site, tape, s).0, s.r);
  }

  lemma HonestPrinted(site: Site, k: Kernel)
    requires |k.lines| == 3
    ensures Honest(site, k) ==> Printed(k.lines)
  {
  }

  /** After an intent has been written for a matching record. */
  lemma IntentMatches(site: Site, k: Kernel, r: Record, intent: string)
    requires |k.lines| == 3
    requires Matches(site, k, r) && r.pending == "" && r.snapshot.Sha?
    requires intent == "add" || intent == "remove"
    requires 0 <= After(intent, r.owned) <= 8
    ensures Matches(site, k, Intend(site, r, intent, ProofOf(site, k, IndexOf(intent, r.owned))))
  {
    hide Claims, ProofOf, SnapshotOf;
  }

  lemma CommitMatches(site: Site, k: Kernel, r: Record, owned: int)
    requires |k.lines| == 3
    requires Matches(site, k, r) && Shape(site, k, owned) && 0 <= owned <= 8
    ensures Matches(site, k, Commit(r, owned, SnapshotOf(site, k)))
  {
    hide Claims, ProofOf, SnapshotOf;
  }

  /** `change`, from any safe state, keeps the state safe at every exit, issues at
      most the one command it intends, and issues it only on a kernel that holds
      exactly the recorded steps. */
  lemma ChangeSafe(site: Site, tape: Tape, s: State, intent: string)
    requires Safe(site, s.w) && Matches(site, s.w.kernel, s.r)
    requires intent == "add" || intent == "remove"
    requires 0 <= After(intent, s.r.owned) <= 8
    ensures var (after, exit) := Change(site, tape, s, intent);
      && Safe(site, after.w) && Matches(site, after.w.kernel, after.r)
      && (exit.Done? ==> after.r.pending == "" && after.r.snapshot.Sha? && after.w.disk == Some(after.r)
                         && after.w.issued == s.w.issued + [Issue(intent, IndexOf(intent, s.r.owned))])
      && (after.w.issued == s.w.issued || after.w.issued == s.w.issued + [Issue(intent, IndexOf(intent, s.r.owned))])
  {
    hide Check, Witness, Save, Run, Snapshot, Matches, Safe, Shape, SameView, Printed, ProofOf, SnapshotOf, Untouched;
    var (w1, checked) := Check(site, tape, s);
    CheckSafe(site, tape, s);
    CheckFrame(site, tape, s);
    if checked.Done? {
      var index := IndexOf(intent, s.r.owned);
      var (w2, seen) := Witness(site, tape, w1, index);
      SafePrinted(site, w1);
      WitnessSound(site, tape, w1, index);
      UntouchedSafe(site, w1, w2);
      UntouchedMatches(site, w1, w2, s.r);
      UntouchedFrame(site, w1, w2);
      if seen.Got? && Sha(seen.value.whole) == s.r.snapshot && CountsMatch(seen.value.counts, s.r.owned) {
        var intended := Intend(site, s.r, intent, seen.value.residual);
        UntouchedDigests(site, w1, w2, index);
        UntouchedShape(site, w1, w2, s.r.owned);
        IntentMatches(site, w2.kernel, s.r, intent);
        var (w3, written) := Save(site, tape, w2, intended);
        SaveSafe(site, tape, w2, intended);
        SameViewMatches(site, w2.kernel, w3.kernel, intended);
        SameViewShape(site, w2.kernel, w3.kernel, s.r.owned);
        if written.Done? {
          var (w4, ran) := Run(site, tape, w3, intent, index);
          RunSafe(site, tape, w3, intended);
          SafeDisk(site, w4);
          if ran.Done? {
            var owned := After(intent, s.r.owned);
            var (w5, again) := Snapshot(site, tape, w4, owned);
            SafePrinted(site, w4);
            SnapshotSound(site, tape, w4, owned);
            UntouchedSafe(site, w4, w5);
            UntouchedMatches(site, w4, w5, intended);
            UntouchedFrame(site, w4, w5);
            if again.Got? {
              UntouchedDigests(site, w4, w5, index);
              UntouchedShape(site, w4, w5, owned);
              var committed := Commit(intended, owned, again.value);
              CommitMatches(site, w5.kernel, intended, owned);
              var w6 := Save(site, tape, w5, committed).0;
              SaveSafe(site, tape, w5, committed);
              SameViewMatches(site, w5.kernel, w6.kernel, intended);
              SameViewMatches(site, w5.kernel, w6.kernel, committed);
            }
          }
        }
      }
    }
  }

  lemma SafePrinted(site: Site, w: Earth)
    requires Safe(site, w)
    ensures Printed(w.kernel.lines)
  {
  }

  lemma SafeDisk(site: Site, w: Earth)
    requires Safe(site, w) && w.disk.Some?
    ensures Matches(site, w.kernel, w.disk.value) && w.disk.value.snapshot.Sha?
  {
  }

  lemma CheckFrame(site: Site, tape: Tape, s: State)
    requires Safe(site, s.w) && Matches(site, s.w.kernel, s.r)
    ensures Check(site, tape, s).0.issued == s.w.issued
  {
    CheckSafe(site, tape, s);
  }

  lemma UntouchedFrame(site: Site, a: Earth, b: Earth)
    requires Untouched(site, a, b)
    ensures a.issued == b.issued && a.disk == b.disk
  {
  }

  lemma UntouchedDigests(site: Site, a: Earth, b: Earth, i: int)
    requires Untouched(site, a, b)
    ensures SnapshotOf(site, a.kernel) == SnapshotOf(site, b.kernel)
    ensures ProofOf(site, a.kernel, i) == ProofOf(site, b.kernel, i)
  {
    SameViewDigests(site, a.kernel, b.kernel, i);
  }
}
