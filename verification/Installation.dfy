/** Setup completes: on a kernel without the planned resources, and in calm
    surroundings, it installs all eight in plan order; and recovery afterwards
    brings the kernel back to what it was. */
module Installation {
  import opened Text
  import opened Plan
  import opened Observation
  import opened Resources
  import opened Scoped
  import opened KernelState
  import opened Tools
  import opened PlanMeaning
  import opened Printing
  import opened Journal
  import opened JournalSafety
  import opened JournalRuns
  import opened Recovery

  lemma {:induction false} AddAllCompletes(site: Site, tape: Tape, s: State)
    requires Ready(site, tape, s) && 0 <= s.r.owned <= 8 && Renderable(site, tape, s.w.clock)
    ensures var (after, exit) := AddAll(site, tape, s);
      && exit.Done? && after.r.owned == 8 && Ready(site, tape, after) && ForeignKept(site, tape, s.w, after.w)
      && after.w.issued == s.w.issued + Ascending(s.r.owned)
    decreases 8 - s.r.owned
  {
    hide Change, Ready, ForeignKept, Renderable;
    if s.r.owned < 8 {
      var (next, exit) := Change(site, tape, s, "add");
      ChangeCompletes(site, tape, s, "add");
      RenderableLater(site, tape, s.w, next.w);
      AddAllCompletes(site, tape, next);
      CalmAfter(site, tape, s.w, next.w, AddAll(site, tape, next).0.w);
      Extended(s.w.issued, Issue("add", s.r.owned), Ascending(s.r.owned + 1));
    } else {
      ForeignKeptSelf(site, tape, s.w);
    }
  }

  /** A strict namespace must be fresh; a scoped one may hold anything disjoint. */
  predicate MayStart(site: Site, w: Earth) {
    site.scoped || FreshNamespace(Listing(w.kernel.lines))
  }

  lemma BaselineCompletes(site: Site, tape: Tape, s: State)
    requires Calm(site, tape, s.w, 0) && MayStart(site, s.w)
    ensures var (after, exit) := Baseline(site, tape, s);
      && exit.Done? && after.r == s.r.(snapshot := Sha(SnapshotOf(site, after.w.kernel)))
      && Calm(site, tape, after.w, 0) && ForeignKept(site, tape, s.w, after.w)
  {
    hide ObserveScoped, Capture, Calm, ForeignKept, Claims, SnapshotOf, FreshNamespace, Listing;
    CalmParts(site, tape, s.w, 0);
    BaselineSound(site, tape, s);
    UntouchedDigests(site, s.w, Baseline(site, tape, s).0.w, 0);
    if site.scoped {
      ObserveScopedCalm(site, tape, s.w, 0);
      ObserveScopedSound(site, tape, s.w);
    } else {
      var w1 := Capture(site, tape, s.w).0;
      CaptureCalm(site, tape, s.w, 0);
      CaptureKeepsStrict(site, tape, s.w);
      CaptureCalm(site, tape, w1, 0);
      CalmAfter(site, tape, s.w, w1, Capture(site, tape, w1).0);
    }
  }

  lemma CaptureKeepsStrict(site: Site, tape: Tape, w: Earth)
    requires !site.scoped
    ensures Capture(site, tape, w).0.kernel.lines == w.kernel.lines
    ensures Capture(site, tape, w).1.Got? ==> Capture(site, tape, w).1.value == Listing(w.kernel.lines)
  {
  }

  /** From any good record without steps, and none of the planned resources in the
      kernel, Setup installs all eight, in plan order. */
  lemma SetupCompletes(site: Site, tape: Tape, s: State)
    requires Good(site, s) && s.r.pending == "" && s.r.owned == 0
    requires Calm(site, tape, s.w, 0) && MayStart(site, s.w) && Renderable(site, tape, s.w.clock)
    ensures var (after, exit) := Setup(site, tape, s);
      && exit.Done? && after.r.owned == 8 && after.r.pending == "" && after.w.disk == Some(after.r)
      && Good(site, after) && Calm(site, tape, after.w, 8) && Shape(site, after.w.kernel, 8)
      && after.w.issued == s.w.issued + Ascending(0)
      && ForeignKept(site, tape, s.w, after.w)
  {
    hide Check, Baseline, Save, AddAll, Matches, Safe, Calm, ForeignKept, Shape, Renderable, SnapshotOf, FreshNamespace, Untouched;
    var w1 := Check(site, tape, s).0;
    CheckCalm(site, tape, s);
    CheckSafe(site, tape, s);
    CheckFrame(site, tape, s);
    CheckMayStart(site, tape, s);
    BaselineSafe(site, tape, State(w1, s.r));
    BaselineCompletes(site, tape, State(w1, s.r));
    var s2 := Baseline(site, tape, State(w1, s.r)).0;
    var w3 := Save(site, tape, s2.w, s2.r).0;
    SaveSafe(site, tape, s2.w, s2.r);
    SaveCalm(site, tape, s2.w, 0, s2.r);
    SameViewMatches(site, s2.w.kernel, w3.kernel, s2.r);
    var ready := State(w3, s2.r);
    CalmThroughout(site, tape, [s.w, w1, s2.w, w3]);
    RenderableLater(site, tape, s.w, w3);
    assert Ready(site, tape, ready);
    AddAllCompletes(site, tape, ready);
    var after := AddAll(site, tape, ready).0;
    CalmAfter(site, tape, s.w, w3, after.w);
    ReadyCalm(site, tape, after);
    CalmParts(site, tape, after.w, 8);
    AddAllSaves(site, tape, ready);
    assert Setup(site, tape, s) == (after, Done);
  }

  lemma CheckMayStart(site: Site, tape: Tape, s: State)
    requires MayStart(site, s.w)
    ensures MayStart(site, Check(site, tape, s).0)
  {
    hide Capture, ObserveScoped, FreshNamespace;
    if !site.scoped { CaptureKeepsStrict(site, tape, s.w); }
  }

  lemma {:induction false} AddAllSaves(site: Site, tape: Tape, s: State)
    requires Good(site, s) && 0 <= s.r.owned <= 8
    ensures var (after, exit) := AddAll(site, tape, s);
      exit.Done? && s.r.owned < 8 ==> after.w.disk == Some(after.r)
    decreases 8 - s.r.owned
  {
    hide Change, Safe, Matches;
    if s.r.owned < 8 {
      ChangeSafe(site, tape, s, "add");
      var (next, exit) := Change(site, tape, s, "add");
      if exit.Done? { AddAllSaves(site, tape, next); }
    }
  }

  /** From nothing: no journal file, no planned resource. */
  lemma FreshSetupCompletes(site: Site, tape: Tape, w: Earth)
    requires w.disk.None? && Calm(site, tape, w, 0) && MayStart(site, w) && Renderable(site, tape, w.clock)
    ensures Open(site, w.disk).Some?
    ensures var (after, exit) := Setup(site, tape, State(w, Open(site, w.disk).value));
      && exit.Done? && after.r.owned == 8 && Shape(site, after.w.kernel, 8)
      && after.w.issued == w.issued + Ascending(0)
      && (StillTape(tape, w.clock) ==>
            ForeignLines(site.plan, after.w.kernel.lines) == ForeignLines(site.plan, w.kernel.lines))
  {
    hide Setup, Calm, Claims, SnapshotOf, ProofOf, ForeignKept, MayStart, Renderable, StillTape;
    CalmParts(site, tape, w, 0);
    assert Safe(site, w);
    OpenMatches(site, w);
    var s := State(w, Open(site, w.disk).value);
    SetupCompletes(site, tape, s);
    ForeignUnchanged(site, tape, w, Setup(site, tape, s).0.w);
  }

  /** Installed and removed again: what was there is there. */
  lemma SetupThenRecover(site: Site, tape: Tape, s: State)
    requires Good(site, s) && s.r.pending == "" && s.r.owned == 0
    requires Calm(site, tape, s.w, 0) && MayStart(site, s.w) && Renderable(site, tape, s.w.clock)
    ensures var installed := Setup(site, tape, s).0;
      var (after, exit) := Recover(site, tape, Resolve(site, tape, installed).0);
      && exit.Done? && Shape(site, after.w.kernel, 0)
      && after.w.issued == s.w.issued + Ascending(0) + Descending(8)
      && (StillTape(tape, s.w.clock) ==>
            ForeignLines(site.plan, after.w.kernel.lines) == ForeignLines(site.plan, s.w.kernel.lines))
  {
    hide Setup, Resolve, Recover, Calm, Good, MayStart, Renderable, ForeignKept, ForeignLines, Shape, StillTape;
    SetupCompletes(site, tape, s);
    var installed := Setup(site, tape, s).0;
    RecoveryCompletes(site, tape, installed, 8);
    ForeignUnchanged(site, tape, s.w, installed.w);
    StillLater(site, tape, s.w, installed.w);
  }

  lemma StillLater(site: Site, tape: Tape, a: Earth, b: Earth)
    requires ForeignKept(site, tape, a, b)
    ensures StillTape(tape, a.clock) ==> StillTape(tape, b.clock)
  {
  }

  /** Nothing fails, nobody else writes, and each step prints as its own words. */
  function QuietTape(p: DestinationPlan): Tape {
    (t: nat) => Choice([], Succeed, (i: nat) => if i < 8 then StepLine(p, i) else "", 0)
  }

  /** There is such a run for every valid plan and every kernel that is free of it. */
  lemma SetupCanComplete(site: Site, w: Earth)
    requires ValidPlan(site.plan) && w.disk.None? && Printed(w.kernel.lines) && Shape(site, w.kernel, 0) && CalmLines(site, w.kernel.lines)
    requires MayStart(site, w)
    requires |site.marks("rule", StepLine(site.plan, 1))| == 1
    requires var use := site.marks("rule", StepLine(site.plan, 1))[0]; use.value == site.plan.mark && use.mask == site.plan.mask
    ensures Open(site, w.disk).Some?
    ensures var (after, exit) := Setup(site, QuietTape(site.plan), State(w, Open(site, w.disk).value));
      && exit.Done? && after.r.owned == 8 && Shape(site, after.w.kernel, 8)
      && ForeignLines(site.plan, after.w.kernel.lines) == ForeignLines(site.plan, w.kernel.lines)
  {
    hide Setup, Renders, CalmLines, MayStart, Claims, Open, ForeignLines;
    var tape := QuietTape(site.plan);
    forall t: nat, i: nat | t >= w.clock && i < 8 ensures Renders(site, i, tape(t).prints(i)) {
      EveryStepRenders(site, i);
    }
    assert CalmTape(site, tape, w.clock);
    assert Calm(site, tape, w, 0);
    assert StillTape(tape, w.clock);
    FreshSetupCompletes(site, tape, w);
  }

  // ---- what a strict namespace may hold ----

  /** What stands across the line break contains it. */
  lemma NotAcross(a: string, b: string, part: string, k: nat)
    requires k <= |a + "\n" + b| - |part| && part <= (a + "\n" + b)[k..]
    ensures '\n' in part || k + |part| <= |a| || k > |a|
  {
    var s := a + "\n" + b;
    assert forall j :: 0 <= j < |part| ==> part[j] == s[k..][j] == s[k + j];
    assert k <= |a| < k + |part| ==> part[|a| - k] == '\n';
  }

  lemma ContainsEither(a: string, b: string, part: string)
    requires part != "" && '\n' !in part
    ensures Contains(a + "\n" + b, part) <==> Contains(a, part) || Contains(b, part)
  {
    var s := a + "\n" + b;
    if Contains(s, part) {
      var k :| 0 <= k <= |s| - |part| && part <= s[k..];
      NotAcross(a, b, part, k);
      if k + |part| <= |a| {
        assert part <= a[k..];
      } else {
        var m := k - |a| - 1;
        assert b[m..] == s[k..];
      }
    }
    if Contains(a, part) {
      var k :| 0 <= k <= |a| - |part| && part <= a[k..];
      assert s[k..] == a[k..] + "\n" + b;
    }
    if Contains(b, part) {
      var k :| 0 <= k <= |b| - |part| && part <= b[k..];
      assert s[|a| + 1 + k..] == b[k..];
    }
  }

  lemma {:induction false} ContainsJoined(lines: seq<string>, part: string)
    requires part != "" && '\n' !in part
    ensures Contains(JoinLines(lines), part) <==> exists k :: 0 <= k < |lines| && Contains(lines[k], part)
    decreases |lines|
  {
    hide Contains;
    if |lines| == 0 {
      NothingContains(part);
    } else if |lines| > 1 {
      ContainsJoined(lines[1..], part);
      ContainsEither(lines[0], JoinLines(lines[1..]), part);
      if k :| 0 <= k < |lines| && Contains(lines[k], part) { assert k > 0 ==> lines[1..][k - 1] == lines[k]; }
      if k :| 0 <= k < |lines[1..]| && Contains(lines[1..][k], part) { assert lines[k + 1] == lines[1..][k]; }
    }
  }

  lemma NothingContains(part: string)
    requires part != ""
    ensures !Contains("", part)
  {
  }

  /** No rule or chain of anybody's, the three default policies, loopback routes. */
  predicate FreshLines(lines: seq<seq<string>>)
    requires |lines| == 3
  {
    && (forall k :: 0 <= k < |lines[0]| ==> !Contains(lines[0][k], "-A ") && !Contains(lines[0][k], "-N "))
    && (forall k :: 0 <= k < |lines[1]| ==> Fields(lines[1][k]) == [] || Fields(lines[1][k])[0] in {"0:", "32766:", "32767:"})
    && (forall k :: 0 <= k < |lines[2]| ==>
          Contains(lines[2][k], "dev lo") && (Contains(lines[2][k], "127.") || HasPrefix(lines[2][k], "local ::1 dev lo ")))
  }

  /** The strict admission test of the printed text is that of its lines. */
  lemma FreshExactly(lines: seq<seq<string>>)
    requires Printed(lines)
    ensures FreshNamespace(Listing(lines)) <==> FreshLines(lines)
  {
    hide Contains, Fields, JoinLines, SplitLines;
    ContainsJoined(lines[0], "-A ");
    ContainsJoined(lines[0], "-N ");
    SplitOfJoin(lines[1]);
    SplitOfJoin(lines[2]);
    assert Fields("") == [] by { assert |Fields("")| == 0; }
    assert forall k :: 0 <= k < |lines[1]| ==> lines[1][k] in lines[1];
    assert forall k :: 0 <= k < |lines[2]| ==> lines[2][k] in lines[2];
  }

  /** In strict mode Setup issues a command only in a fresh namespace. */
  lemma StrictSetupNeedsFresh(site: Site, tape: Tape, s: State)
    requires !site.scoped && Printed(s.w.kernel.lines)
    requires Setup(site, tape, s).0.w.issued != s.w.issued
    ensures FreshLines(s.w.kernel.lines)
  {
    hide Contains, Fields, AddAll, FreshNamespace, FreshLines, Claims, Listing;
    CaptureKeepsStrict(site, tape, s.w);
    var w1 := Check(site, tape, s).0;
    CheckNeeds(site, tape, s);
    CaptureKeepsStrict(site, tape, w1);
    var (started, based) := Baseline(site, tape, State(w1, s.r));
    BaselineSound(site, tape, State(w1, s.r));
    if based.Done? {
      SaveFrame(site, tape, started.w, started.r);
    }
    FreshExactly(s.w.kernel.lines);
  }
}
