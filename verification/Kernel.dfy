/** The kernel as the controller sees it: three printed lists of lines, the rules
    that exact checks find, and the effect of command lines on both. */
module KernelState {
  import opened Text
  import opened Plan
  import opened Observation
  import opened Resources
  import opened Scoped
  import opened Footprints
  import opened Tools
  import opened Exactness
  import opened PlanMeaning

  datatype Kernel = Kernel(lines: seq<seq<string>>, rules: set<Thing>)

  /** What stays fixed while controllers come and go. */
  datatype Site = Site(
    plan: DestinationPlan,
    scoped: bool,
    ns: string,
    boot: string,
    aliases: map<string, nat>,
    marks: (string, string) -> seq<MarkUse>)

  predicate Printed(lines: seq<seq<string>>) {
    |lines| == 3 && PrintedLines(lines[0]) && PrintedLines(lines[1]) && PrintedLines(lines[2])
  }

  /** The three command outputs. */
  function Listing(lines: seq<seq<string>>): (r: seq<string>)
    requires |lines| == 3
    ensures |r| == 3
  {
    [JoinLines(lines[0]), JoinLines(lines[1]), JoinLines(lines[2])]
  }

  /** Whether a check command finds what it asks for. */
  predicate Answers(k: Kernel, args: seq<string>) {
    match Meaning(args)
    case Some(Ask(t)) => t in k.rules
    case _ => false
  }

  /** The steps whose exact check succeeds. */
  function ExactSteps(p: DestinationPlan, k: Kernel): set<nat> {
    set i | i in RULE_STEPS && Answers(k, CheckOf(p, i))
  }

  function ContextOf(site: Site, k: Kernel): Context {
    Context(site.aliases, site.marks, ExactSteps(site.plan, k))
  }

  function LinesOf(lines: seq<seq<string>>): seq<Entry>
    requires |lines| == 3
  {
    Tag(0, lines[0]) + Tag(1, lines[1]) + Tag(2, lines[2])
  }

  /** The lines that hold the place of step i. */
  function Claims(p: DestinationPlan, lines: seq<seq<string>>, i: nat): seq<Entry>
    requires |lines| == 3
  {
    Claimed(p, LinesOf(lines), i)
  }

  function ForeignLines(p: DestinationPlan, lines: seq<seq<string>>): seq<seq<string>>
    requires |lines| == 3
  {
    [Unclaimed(p, 0, lines[0]), Unclaimed(p, 1, lines[1]), Unclaimed(p, 2, lines[2])]
  }

  predicate SameClaims(p: DestinationPlan, a: seq<seq<string>>, b: seq<seq<string>>)
    requires |a| == 3 && |b| == 3
  {
    forall i :: 0 <= i < 8 ==> Claims(p, a, i) == Claims(p, b, i)
  }

  /** The kernel prints step i as a line that displays its thing and that both
      classifiers recognise. */
  predicate Renders(site: Site, i: nat, line: string) {
    var e := Entry(StepBucket(i), line);
    var ctx := Context(site.aliases, site.marks, RULE_STEPS);
    && i < 8 && ValidPlan(site.plan)
    && PrintedLines([line])
    && Displays(site.marks, StepThing(site.plan, i), e)
    && Judge(site.plan, ctx, e) == Planned(i)
    && RowIndex(site.plan, ctx, 1, e) == Ok(i)
  }

  function Insert(lines: seq<string>, line: string, pos: nat): seq<string> {
    if pos <= |lines| then lines[..pos] + [line] + lines[pos..] else lines + [line]
  }

  // ---- running a command line ----

  /** What a command line does, or None if it is refused: the tools add no second
      chain, route or policy of the same kind, and take away only what is there.
      A thing made is printed as `line`, at `pos`. */
  function Execute(marks: (string, string) -> seq<MarkUse>, k: Kernel, args: seq<string>, line: string, pos: nat): (r: Option<Kernel>)
    requires |k.lines| == 3
    ensures r.Some? ==> |r.value.lines| == 3
  {
    match Meaning(args)
    case Some(Make(t)) =>
      var b := BucketOf(t);
      if !t.RuleThing? && Shown(marks, k.lines[b], t) then None
      else Some(Kernel(k.lines[b := Insert(k.lines[b], line, pos)], if t.RuleThing? then k.rules + {t} else k.rules))
    case Some(Take(t)) =>
      var b := BucketOf(t);
      if !Shown(marks, k.lines[b], t) || (t.RuleThing? && t !in k.rules) then None
      else Some(Kernel(k.lines[b := TakeOne(marks, k.lines[b], t)], k.rules - {t}))
    case _ => None
  }

  function Added(p: DestinationPlan, k: Kernel, i: nat, line: string, pos: nat): Kernel
    requires |k.lines| == 3 && i < 8
  {
    var b, t := StepBucket(i), StepThing(p, i);
    Kernel(k.lines[b := Insert(k.lines[b], line, pos)], if t.RuleThing? then k.rules + {t} else k.rules)
  }

  function Removed(site: Site, k: Kernel, i: nat): Kernel
    requires |k.lines| == 3 && i < 8
  {
    var b, t := StepBucket(i), StepThing(site.plan, i);
    Kernel(k.lines[b := TakeOne(site.marks, k.lines[b], t)], k.rules - {t})
  }

  predicate Present(site: Site, k: Kernel, i: nat)
    requires |k.lines| == 3 && i < 8
  {
    Shown(site.marks, k.lines[StepBucket(i)], StepThing(site.plan, i))
  }

  /** Running the plan's own command lines, as the tools read them, adds exactly step
      i's line and takes exactly one such line away. */
  lemma PlanRuns(site: Site, k: Kernel, i: nat, line: string, pos: nat)
    requires |k.lines| == 3 && ValidPlan(site.plan) && i < 8
    ensures Execute(site.marks, k, CommandOf(site.plan, "add", i), line, pos)
      == if i !in RULE_STEPS && Present(site, k, i) then None else Some(Added(site.plan, k, i, line, pos))
    ensures Execute(site.marks, k, CommandOf(site.plan, "remove", i), line, pos)
      == if Present(site, k, i) && (i in RULE_STEPS ==> StepThing(site.plan, i) in k.rules) then Some(Removed(site, k, i)) else None
    ensures i in RULE_STEPS ==> (Answers(k, CheckOf(site.plan, i)) <==> StepThing(site.plan, i) in k.rules)
  {
    hide Meaning, CommandOf, CheckOf, Shown, TakeOne;
    PlanMeans(site.plan, i);
    ThingBucket(site.plan, i);
  }

  /** Made and taken away again, a step leaves the kernel as it was: the removal finds
      exactly the line that the addition put in. */
  lemma MakeThenTake(site: Site, k: Kernel, i: nat, line: string, pos: nat)
    requires |k.lines| == 3 && ValidPlan(site.plan) && i < 8
    requires !Present(site, k, i) && StepThing(site.plan, i) !in k.rules
    requires Displays(site.marks, StepThing(site.plan, i), Entry(StepBucket(i), line))
    ensures var made := Execute(site.marks, k, CommandOf(site.plan, "add", i), line, pos);
      && made.Some? && line in made.value.lines[StepBucket(i)]
      && Execute(site.marks, made.value, CommandOf(site.plan, "remove", i), "", 0) == Some(k)
  {
    hide Displays, StepThing, CommandOf, Execute, TakeOne, Insert, Shown, CheckOf;
    var b, t := StepBucket(i), StepThing(site.plan, i);
    ThingBucket(site.plan, i);
    RuleSteps(site.plan, i);
    PlanRuns(site, k, i, line, pos);
    var k1 := Added(site.plan, k, i, line, pos);
    PlanRuns(site, k1, i, "", 0);
    TakesBack(site.marks, k.lines[b], line, pos, t);
    assert k1.lines[b := k.lines[b]] == k.lines;
    assert k1.rules - {t} == k.rules;
  }

  /** A line put in anywhere is the one taken out if no other displays the thing. */
  lemma TakesBack(marks: (string, string) -> seq<MarkUse>, lines: seq<string>, line: string, pos: nat, t: Thing)
    requires !Shown(marks, lines, t) && Displays(marks, t, Entry(BucketOf(t), line))
    ensures var more := Insert(lines, line, pos);
      line in more && Shown(marks, more, t) && TakeOne(marks, more, t) == lines
  {
    hide Displays, TakeOne;
    var more := Insert(lines, line, pos);
    var at := if pos <= |lines| then pos else |lines|;
    assert more == lines[..at] + [line] + lines[at..] && more[at] == line;
    var n := TakesFirst(marks, more, t);
    assert forall m :: 0 <= m < |more| && m != at ==> more[m] == lines[if m < at then m else m - 1];
    assert n == at;
    assert more[..n] + more[n + 1..] == lines;
  }

  /** Each step's command changes the exact check of its own rule only. */
  lemma ExactAfter(site: Site, k: Kernel, i: nat, line: string, pos: nat)
    requires |k.lines| == 3 && ValidPlan(site.plan) && i < 8
    ensures ExactSteps(site.plan, Added(site.plan, k, i, line, pos)) == ExactSteps(site.plan, k) + RULE_STEPS * {i}
    ensures ExactSteps(site.plan, Removed(site, k, i)) == ExactSteps(site.plan, k) - {i}
  {
    hide StepThing, CheckOf, Meaning, TakeOne, Insert;
    var p := site.plan;
    var after, less := Added(p, k, i, line, pos), Removed(site, k, i);
    assert StepThing(p, i).RuleThing? <==> i in RULE_STEPS by { RuleSteps(p, i); }
    forall j | j in RULE_STEPS
      ensures Answers(after, CheckOf(p, j)) <==> (Answers(k, CheckOf(p, j)) || j == i)
      ensures Answers(less, CheckOf(p, j)) <==> (Answers(k, CheckOf(p, j)) && j != i)
    {
      PlanMeans(p, j);
      if StepThing(p, i) == StepThing(p, j) { ThingsDiffer(p, i, j); }
    }
  }

  lemma RuleSteps(p: DestinationPlan, i: nat)
    requires i < 8
    ensures StepThing(p, i).RuleThing? <==> i in RULE_STEPS
  {
  }

  // ---- claims of a listing ----

  lemma TagAppend(bucket: nat, a: seq<string>, b: seq<string>)
    ensures Tag(bucket, a + b) == Tag(bucket, a) + Tag(bucket, b)
  {
  }

  lemma ClaimsByBucket(p: DestinationPlan, lines: seq<seq<string>>, i: nat)
    requires |lines| == 3
    ensures Claims(p, lines, i)
         == Claimed(p, Tag(0, lines[0]), i) + Claimed(p, Tag(1, lines[1]), i) + Claimed(p, Tag(2, lines[2]), i)
  {
    ClaimedAppend(p, Tag(0, lines[0]), Tag(1, lines[1]), i);
    ClaimedAppend(p, Tag(0, lines[0]) + Tag(1, lines[1]), Tag(2, lines[2]), i);
  }

  lemma ListedBucket(p: DestinationPlan, bucket: nat, lines: seq<string>, i: nat)
    requires PrintedLines(lines)
    ensures Claimed(p, Tag(bucket, SplitLines(JoinLines(lines))), i) == Claimed(p, Tag(bucket, lines), i)
  {
    hide Claim, JoinLines;
    SplitOfJoin(lines);
    if lines == [] {
      EmptyLineUnclaimed(p, bucket);
      assert Tag(bucket, [""])[..0] == [];
      assert Tag(bucket, [""])[0] == Entry(bucket, "");
    }
  }

  /** The classifier sees exactly the kernel's claims. */
  lemma ListedClaims(p: DestinationPlan, lines: seq<seq<string>>, i: nat)
    requires Printed(lines)
    ensures Claimed(p, Entries(Listing(lines)), i) == Claims(p, lines, i)
  {
    hide Claim, JoinLines, SplitLines, Claimed, PrintedLines;
    var out := Listing(lines);
    var s0, s1, s2 := Tag(0, SplitLines(out[0])), Tag(1, SplitLines(out[1])), Tag(2, SplitLines(out[2]));
    EntriesOfThree(out);
    ClaimedAppend(p, s0, s1, i);
    ClaimedAppend(p, s0 + s1, s2, i);
    ListedBucket(p, 0, lines[0], i);
    ListedBucket(p, 1, lines[1], i);
    ListedBucket(p, 2, lines[2], i);
    ClaimsByBucket(p, lines, i);
  }

  lemma EntriesOfThree(out: seq<string>)
    requires |out| == 3
    ensures Entries(out) == Tag(0, SplitLines(out[0])) + Tag(1, SplitLines(out[1])) + Tag(2, SplitLines(out[2]))
  {
    hide SplitLines;
    assert EntriesBefore(out, 1) == Tag(0, SplitLines(out[0]));
    assert EntriesBefore(out, 2) == EntriesBefore(out, 1) + Tag(1, SplitLines(out[1]));
  }

  /** Every listed line is a kernel line or empty. */
  lemma ListedLine(lines: seq<seq<string>>, e: Entry)
    requires Printed(lines)
    requires e in Entries(Listing(lines))
    ensures e in LinesOf(lines) || e.line == ""
  {
    hide JoinLines, SplitLines;
    EntriesOfThree(Listing(lines));
    SplitOfJoin(lines[0]);
    SplitOfJoin(lines[1]);
    SplitOfJoin(lines[2]);
  }

  // ---- lines inserted into a listing ----

  lemma ListedTouching(p: DestinationPlan, ctx: Context, bucket: nat, lines: seq<string>)
    requires PrintedLines(lines)
    ensures Touching(p, ctx, Tag(bucket, SplitLines(JoinLines(lines)))) == Touching(p, ctx, Tag(bucket, lines))
  {
    hide Disjoint, JoinLines, SplitLines;
    SplitOfJoin(lines);
    if lines == [] {
      EmptyLineDisjoint(p, ctx, Entry(bucket, ""));
      NothingTouches(p, ctx, Tag(bucket, [""]));
      NothingTouches(p, ctx, Tag(bucket, lines));
    }
  }

  lemma ListingTouching(p: DestinationPlan, ctx: Context, lines: seq<seq<string>>)
    requires Printed(lines)
    ensures Touching(p, ctx, Entries(Listing(lines)))
      == Touching(p, ctx, Tag(0, lines[0])) + Touching(p, ctx, Tag(1, lines[1])) + Touching(p, ctx, Tag(2, lines[2]))
  {
    hide Disjoint, JoinLines, SplitLines, Touching, Tag, Entries;
    var out := Listing(lines);
    var s0, s1, s2 := Tag(0, SplitLines(out[0])), Tag(1, SplitLines(out[1])), Tag(2, SplitLines(out[2]));
    EntriesOfThree(out);
    TouchingAppend(p, ctx, s0, s1);
    TouchingAppend(p, ctx, s0 + s1, s2);
    ListedTouching(p, ctx, 0, lines[0]);
    ListedTouching(p, ctx, 1, lines[1]);
    ListedTouching(p, ctx, 2, lines[2]);
  }

  /** Inserting any lines that do not touch the footprint, anywhere in any of the
      three listings, changes nothing in the result. */
  lemma InsertedLinesAreIgnored(p: DestinationPlan, ctx: Context, lines: seq<seq<string>>, bucket: nat,
                                a: seq<string>, extra: seq<string>, b: seq<string>)
    requires Printed(lines) && bucket < 3 && lines[bucket] == a + b && PrintedLines(extra)
    requires forall x :: x in extra ==> Disjoint(p, ctx, Entry(bucket, x))
    ensures ClassifyScoped(p, ctx, Listing(lines[bucket := a + extra + b])) == ClassifyScoped(p, ctx, Listing(lines))
  {
    hide Disjoint, JoinLines, SplitLines, Touching, ClassifyScoped, Entries;
    var more := lines[bucket := a + extra + b];
    assert Printed(more) by { InsertedPrinted(a, extra, b); }
    ListingTouching(p, ctx, lines);
    ListingTouching(p, ctx, more);
    TagAppend(bucket, a, b);
    TagAppend(bucket, a, extra);
    TagAppend(bucket, a + extra, b);
    TouchingAppend(p, ctx, Tag(bucket, a), Tag(bucket, b));
    TouchingAppend(p, ctx, Tag(bucket, a), Tag(bucket, extra));
    TouchingAppend(p, ctx, Tag(bucket, a + extra), Tag(bucket, b));
    NothingTouches(p, ctx, Tag(bucket, extra));
    DisjointLinesAreIgnored(p, ctx, Listing(more), Listing(lines));
  }

  lemma InsertedPrinted(a: seq<string>, extra: seq<string>, b: seq<string>)
    requires PrintedLines(a + b) && PrintedLines(extra)
    ensures PrintedLines(a + extra + b)
  {
    forall k | 0 <= k < |a + extra + b| ensures (a + extra + b)[k] != "" && '\n' !in (a + extra + b)[k] {
      if k < |a| { assert (a + b)[k] == a[k]; }
      else if k >= |a| + |extra| { assert (a + b)[k - |extra|] == b[k - |a| - |extra|]; }
    }
  }

  // ---- effect of the commands on claims and on foreign lines ----

  lemma ClaimedOne(p: DestinationPlan, e: Entry, i: nat)
    ensures Claimed(p, [e], i) == if Claim(p, e) == i then [e] else []
  {
    hide Claim;
    assert [e][..0] == [];
  }

  lemma ClaimedInserted(p: DestinationPlan, bucket: nat, a: seq<string>, line: string, b: seq<string>, j: nat)
    ensures Claimed(p, Tag(bucket, a + b), j) == Claimed(p, Tag(bucket, a), j) + Claimed(p, Tag(bucket, b), j)
    ensures Claimed(p, Tag(bucket, (a + [line]) + b), j)
         == (Claimed(p, Tag(bucket, a), j) + if Claim(p, Entry(bucket, line)) == j then [Entry(bucket, line)] else [])
            + Claimed(p, Tag(bucket, b), j)
  {
    hide Claim, Claimed;
    TagAppend(bucket, a, b);
    TagAppend(bucket, a + [line], b);
    TagAppend(bucket, a, [line]);
    assert Tag(bucket, [line]) == [Entry(bucket, line)];
    ClaimedAppend(p, Tag(bucket, a), Tag(bucket, b), j);
    ClaimedAppend(p, Tag(bucket, a + [line]), Tag(bucket, b), j);
    ClaimedAppend(p, Tag(bucket, a), [Entry(bucket, line)], j);
    ClaimedOne(p, Entry(bucket, line), j);
  }

  lemma UnclaimedInserted(p: DestinationPlan, bucket: nat, a: seq<string>, line: string, b: seq<string>)
    requires Claim(p, Entry(bucket, line)) >= 0
    ensures Unclaimed(p, bucket, (a + [line]) + b) == Unclaimed(p, bucket, a + b)
  {
    hide Claim, Unclaimed;
    UnclaimedAppend(p, bucket, a, b);
    UnclaimedAppend(p, bucket, a + [line], b);
    UnclaimedNext(p, bucket, a, line);
  }

  lemma InsertedLine(p: DestinationPlan, bucket: nat, lines: seq<string>, line: string, pos: nat, i: nat)
    requires Claim(p, Entry(bucket, line)) == i
    ensures forall j: nat :: j != i ==>
      Claimed(p, Tag(bucket, Insert(lines, line, pos)), j) == Claimed(p, Tag(bucket, lines), j)
    ensures Claimed(p, Tag(bucket, lines), i) == [] ==>
      Claimed(p, Tag(bucket, Insert(lines, line, pos)), i) == [Entry(bucket, line)]
    ensures Unclaimed(p, bucket, Insert(lines, line, pos)) == Unclaimed(p, bucket, lines)
  {
    hide Claim, Claimed, Unclaimed, Tag;
    var n := if pos <= |lines| then pos else |lines|;
    var a, b := lines[..n], lines[n..];
    assert lines == a + b && Insert(lines, line, pos) == (a + [line]) + b;
    forall j: nat | j != i
      ensures Claimed(p, Tag(bucket, Insert(lines, line, pos)), j) == Claimed(p, Tag(bucket, lines), j)
    {
      ClaimedInserted(p, bucket, a, line, b, j);
    }
    ClaimedInserted(p, bucket, a, line, b, i);
    UnclaimedInserted(p, bucket, a, line, b);
  }

  /** Adding a rendered step gives that step its line, and changes no other
      claim and no foreign line. */
  lemma AddedClaims(site: Site, k: Kernel, i: nat, line: string, pos: nat)
    requires Printed(k.lines) && i < 8 && Renders(site, i, line)
    requires Claims(site.plan, k.lines, i) == []
    ensures Printed(Added(site.plan, k, i, line, pos).lines)
    ensures Claims(site.plan, Added(site.plan, k, i, line, pos).lines, i) == [Entry(StepBucket(i), line)]
    ensures forall j: nat :: j != i ==> Claims(site.plan, Added(site.plan, k, i, line, pos).lines, j) == Claims(site.plan, k.lines, j)
    ensures ForeignLines(site.plan, Added(site.plan, k, i, line, pos).lines) == ForeignLines(site.plan, k.lines)
  {
    hide Claim, Claimed, Unclaimed, Judge, RowIndex;
    var p, b := site.plan, StepBucket(i);
    var after := Added(site.plan, k, i, line, pos).lines;
    assert Claim(p, Entry(b, line)) == i by {
      assert Judge(p, Context(site.aliases, site.marks, RULE_STEPS), Entry(b, line)) == Planned(i);
    }
    InsertedLine(p, b, k.lines[b], line, pos, i);
    InsertPrinted(k.lines[b], line, pos);
    forall j: nat
      ensures Claims(p, k.lines, j)
           == Claimed(p, Tag(0, k.lines[0]), j) + Claimed(p, Tag(1, k.lines[1]), j) + Claimed(p, Tag(2, k.lines[2]), j)
      ensures Claims(p, after, j)
           == Claimed(p, Tag(0, after[0]), j) + Claimed(p, Tag(1, after[1]), j) + Claimed(p, Tag(2, after[2]), j)
    {
      ClaimsByBucket(p, k.lines, j);
      ClaimsByBucket(p, after, j);
    }
  }

  lemma InsertPrinted(lines: seq<string>, line: string, pos: nat)
    requires PrintedLines(lines) && PrintedLines([line])
    ensures PrintedLines(Insert(lines, line, pos))
  {
    assert [line][0] == line;
  }

  lemma ClaimsChanged(p: DestinationPlan, lines: seq<seq<string>>, b: nat, less: seq<string>, j: nat)
    requires |lines| == 3 && b < 3
    ensures Claimed(p, Tag(b, less), j) == Claimed(p, Tag(b, lines[b]), j) ==> Claims(p, lines[b := less], j) == Claims(p, lines, j)
    ensures |Claims(p, lines[b := less], j)| - |Claims(p, lines, j)| == |Claimed(p, Tag(b, less), j)| - |Claimed(p, Tag(b, lines[b]), j)|
  {
    hide Claimed, Tag;
    ClaimsByBucket(p, lines, j);
    ClaimsByBucket(p, lines[b := less], j);
  }

  lemma TakenPrinted(lines: seq<string>, n: nat)
    requires PrintedLines(lines) && n < |lines|
    ensures PrintedLines(lines[..n] + lines[n + 1..])
  {
  }

  /** Removing a step takes one of its lines away, and nothing else. */
  lemma RemovedClaims(site: Site, k: Kernel, i: nat)
    requires Printed(k.lines) && i < 8 && ValidPlan(site.plan) && Present(site, k, i)
    ensures Printed(Removed(site, k, i).lines)
    ensures |Claims(site.plan, Removed(site, k, i).lines, i)| == |Claims(site.plan, k.lines, i)| - 1
    ensures forall j: nat :: j != i ==> Claims(site.plan, Removed(site, k, i).lines, j) == Claims(site.plan, k.lines, j)
    ensures ForeignLines(site.plan, Removed(site, k, i).lines) == ForeignLines(site.plan, k.lines)
  {
    hide Claim, Claimed, Claims, Unclaimed, Displays, StepThing, TakeOne, Tag, PrintedLines;
    var p, b, t := site.plan, StepBucket(i), StepThing(site.plan, i);
    ThingBucket(p, i);
    var lines := k.lines[b];
    var n := TakesFirst(site.marks, lines, t);
    var left, x, right := lines[..n], lines[n], lines[n + 1..];
    assert lines == (left + [x]) + right;
    var less := left + right;
    assert Removed(site, k, i).lines == k.lines[b := less];
    TakenPrinted(lines, n);
    DisplayedAtPlace(p, site.marks, i, Entry(b, x));
    UnclaimedInserted(p, b, left, x, right);
    forall j: nat | j != i ensures Claims(p, k.lines[b := less], j) == Claims(p, k.lines, j) {
      ClaimedInserted(p, b, left, x, right, j);
      assert Claimed(p, Tag(b, left), j) + [] == Claimed(p, Tag(b, left), j);
      ClaimsChanged(p, k.lines, b, less, j);
    }
    ClaimedInserted(p, b, left, x, right, i);
    ClaimsChanged(p, k.lines, b, less, i);
  }
}
