/** witness_linux.go: the strict classifier. It takes exactly the planned
    resources out of an observation and digests what is left. */
module Resources {
  import opened Text
  import opened Plan
  import opened Observation

  datatype ResourceWitness = ResourceWitness(counts: Counts, whole: Digest, residual: Digest)

  /** Some `-j target` follows the chain name. */
  predicate JumpsTo(f: seq<string>, target: string) {
    exists i :: 2 <= i < |f| - 1 && f[i] == "-j" && f[i + 1] == target
  }

  function FirewallClaim(p: DestinationPlan, f: seq<string>): int {
    if |f| < 2 then -1
    else if f[0] == "-A" then
      if f[1] == "PREROUTING" && JumpsTo(f, PreChain(p)) then 4
      else if f[1] == "OUTPUT" && JumpsTo(f, OutChain(p)) then 7
      else if f[1] == OutChain(p) then 6
      else if f[1] == PreChain(p) then 3
      else -1
    else if |f| == 2 && f[0] == "-N" then
      if f[1] == OutChain(p) then 5
      else if f[1] == PreChain(p) then 2
      else -1
    else -1
  }

  function PolicyClaim(p: DestinationPlan, f: seq<string>): int {
    if |f| > 0 && f[0] == FormatUint(p.priority) + ":" then 1 else -1
  }

  predicate LoopbackRoute(p: DestinationPlan, f: seq<string>) {
    && |f| >= 4 && f[0] == "local"
    && (f[1] == AddressText(p.address) || f[1] == AddressText(p.address) + "/32")
    && f[2] == "dev" && f[3] == "lo"
  }

  /** The option loop over a route: whether the last `table` option names the
      planned table, and whether every option is one the kernel may add. */
  function RouteOptions(p: DestinationPlan, f: seq<string>, i: nat, found: bool, valid: bool): (bool, bool)
    decreases |f| - i
  {
    if i >= |f| then (found, valid)
    else if i + 1 >= |f| then (found, false)
    else if f[i] == "table" then RouteOptions(p, f, i + 2, f[i + 1] == FormatUint(p.table), valid)
    else if f[i] == "scope" then RouteOptions(p, f, i + 2, found, valid && f[i + 1] == "host")
    else if f[i] == "proto" then RouteOptions(p, f, i + 2, found, valid && (f[i + 1] == "boot" || f[i + 1] == "static"))
    else RouteOptions(p, f, i + 2, found, false)
  }

  function RouteClaim(p: DestinationPlan, f: seq<string>): int {
    if LoopbackRoute(p, f) && RouteOptions(p, f, 4, false, true).0 then 0 else -1
  }

  /** The step whose place a line takes, or -1 for a line of somebody else's. */
  function Claim(p: DestinationPlan, e: Entry): (index: int)
    ensures -1 <= index < 8
  {
    var f := Fields(e.line);
    if e.bucket == 0 then FirewallClaim(p, f)
    else if e.bucket == 1 then PolicyClaim(p, f)
    else if e.bucket == 2 then RouteClaim(p, f)
    else -1
  }

  datatype Verdict = Retain | Planned(index: nat) | Refuse(error: Error)

  /** Whether a claiming line is exactly the planned resource. */
  function Judge(p: DestinationPlan, ctx: Context, e: Entry): (v: Verdict)
    ensures v.Retain? <==> Claim(p, e) == -1
    ensures v.Planned? ==> v.index == Claim(p, e)
  {
    var f := Fields(e.line);
    var index := Claim(p, e);
    if index < 0 then Retain
    else if e.bucket == 0 then
      if f[0] == "-A" && index !in ctx.exact then Refuse(RuleMismatch) else Planned(index)
    else if e.bucket == 1 then
      if |f| != 7 || f[1] != "from" || f[2] != "all" || f[3] != "fwmark" || f[5] != "lookup"
         || f[6] != FormatUint(p.table) then Refuse(PolicyMismatch)
      else
        var uses := ctx.marks("rule", e.line);
        if |uses| != 1 || uses[0].value != p.mark || uses[0].mask != p.mask then Refuse(PolicyMismatch)
        else Planned(index)
    else if !RouteOptions(p, f, 4, false, true).1 then Refuse(RouteMismatch)
    else Planned(index)
  }

  /** One turn of the counting loop. */
  function CountStep(p: DestinationPlan, ctx: Context, counts: Counts, e: Entry): Result<Counts> {
    match Judge(p, ctx, e)
    case Retain => Ok(counts)
    case Refuse(error) => Err(error)
    case Planned(i) => if counts[i] > 0 then Err(Duplicate(i)) else Ok(counts[i := 1])
  }

  /** The loop stops at its first error. */
  function CountAfter(p: DestinationPlan, ctx: Context, before: Result<Counts>, e: Entry): Result<Counts> {
    if before.Err? then before else CountStep(p, ctx, before.value, e)
  }

  function CountEntries(p: DestinationPlan, ctx: Context, entries: seq<Entry>): Result<Counts> {
    if entries == [] then Ok(NO_COUNTS)
    else CountAfter(p, ctx, CountEntries(p, ctx, entries[..|entries| - 1]), entries[|entries| - 1])
  }

  /** The lines no step claims. */
  function Unclaimed(p: DestinationPlan, bucket: nat, lines: seq<string>): seq<string> {
    if lines == [] then []
    else
      var last := lines[|lines| - 1];
      Unclaimed(p, bucket, lines[..|lines| - 1]) + if Claim(p, Entry(bucket, last)) < 0 then [last] else []
  }

  function ResidualBefore(p: DestinationPlan, outputs: seq<string>, n: nat): (r: seq<string>)
    requires n <= |outputs|
    ensures |r| == n
  {
    if n == 0 then []
    else ResidualBefore(p, outputs, n - 1) + [JoinLines(Unclaimed(p, n - 1, SplitLines(outputs[n - 1])))]
  }

  /** `classifyResources` */
  function ClassifyResources(p: DestinationPlan, ctx: Context, outputs: seq<string>): Result<ResourceWitness> {
    if !ValidPlan(p) then Err(InvalidPlan)
    else if |outputs| != 3 then Err(InvalidObservation)
    else
      match CountEntries(p, ctx, Entries(outputs))
      case Err(error) => Err(error)
      case Ok(counts) => Ok(ResourceWitness(counts, Texts(outputs), Texts(ResidualBefore(p, outputs, 3))))
  }

  lemma {:induction false} FirstErrorStands(p: DestinationPlan, ctx: Context, done: seq<Entry>, rest: seq<Entry>)
    requires CountEntries(p, ctx, done).Err?
    ensures CountEntries(p, ctx, done + rest) == CountEntries(p, ctx, done)
  {
    if rest == [] {
      assert done + rest == done;
    } else {
      var last := |rest| - 1;
      FirstErrorStands(p, ctx, done, rest[..last]);
      assert (done + rest)[..|done| + last] == done + rest[..last];
    }
  }

  lemma CountNext(p: DestinationPlan, ctx: Context, done: seq<Entry>, e: Entry)
    ensures CountEntries(p, ctx, done + [e])
         == CountAfter(p, ctx, CountEntries(p, ctx, done), e)
  {
    assert (done + [e])[..|done|] == done;
  }

  lemma UnclaimedNext(p: DestinationPlan, bucket: nat, lines: seq<string>, line: string)
    ensures Unclaimed(p, bucket, lines + [line])
         == Unclaimed(p, bucket, lines) + if Claim(p, Entry(bucket, line)) < 0 then [line] else []
  {
    assert (lines + [line])[..|lines|] == lines;
  }

  /** Scanning fields for a jump to a reserved chain. */
  method FindJump(f: seq<string>, target: string) returns (found: bool)
    ensures found == JumpsTo(f, target)
  {
    found := false;
    var i := 2;
    while i + 1 < |f|
      invariant i >= 2
      invariant found == exists k :: 2 <= k < i && k < |f| - 1 && f[k] == "-j" && f[k + 1] == target
    {
      if f[i] == "-j" && f[i + 1] == target {
        found := true;
      }
      i := i + 1;
    }
  }

  method ScanRouteOptions(p: DestinationPlan, f: seq<string>) returns (found: bool, valid: bool)
    ensures (found, valid) == RouteOptions(p, f, 4, false, true)
  {
    found, valid := false, true;
    var i := 4;
    while i < |f|
      invariant RouteOptions(p, f, 4, false, true) == RouteOptions(p, f, i, found, valid)
    {
      if i + 1 >= |f| {
        valid := false;
        return;
      }
      match f[i] {
        case "table" => found := f[i + 1] == FormatUint(p.table);
        case "scope" => valid := valid && f[i + 1] == "host";
        case "proto" => valid := valid && (f[i + 1] == "boot" || f[i + 1] == "static");
        case _ => valid := false;
      }
      i := i + 2;
    }
  }

  /** The loop body of `classifyResources` up to the counter. */
  method JudgeLine(p: DestinationPlan, ctx: Context, e: Entry) returns (v: Verdict)
    requires ValidPlan(p)
    ensures v == Judge(p, ctx, e)
  {
    ChainNames(p);
    var f := Fields(e.line);
    var index := -1;
    if e.bucket == 0 && |f| >= 2 {
      if |f| == 2 && f[0] == "-N" && f[1] == PreChain(p) { index := 2; }
      if |f| == 2 && f[0] == "-N" && f[1] == OutChain(p) { index := 5; }
      if f[0] == "-A" {
        if f[1] == PreChain(p) { index := 3; }
        if f[1] == OutChain(p) { index := 6; }
        var toPre := FindJump(f, PreChain(p));
        var toOut := FindJump(f, OutChain(p));
        if toPre && f[1] == "PREROUTING" { index := 4; }
        if toOut && f[1] == "OUTPUT" { index := 7; }
        if index >= 0 && index !in ctx.exact { return Refuse(RuleMismatch); }
      }
    }
    if e.bucket == 1 && |f| > 0 && f[0] == FormatUint(p.priority) + ":" {
      if |f| != 7 || f[1] != "from" || f[2] != "all" || f[3] != "fwmark" || f[5] != "lookup"
         || f[6] != FormatUint(p.table) {
        return Refuse(PolicyMismatch);
      }
      var uses := ctx.marks("rule", e.line);
      if |uses| != 1 || uses[0].value != p.mark || uses[0].mask != p.mask { return Refuse(PolicyMismatch); }
      index := 1;
    }
    if e.bucket == 2 && LoopbackRoute(p, f) {
      var found, valid := ScanRouteOptions(p, f);
      if found {
        if !valid { return Refuse(RouteMismatch); }
        index := 0;
      }
    }
    v := if index < 0 then Retain else Planned(index);
  }

  /** The inner loop: one command's lines. */
  method CountLines(p: DestinationPlan, ctx: Context, ghost before: seq<Entry>, bucket: nat, lines: seq<string>, start: Counts)
    returns (r: Result<Counts>, retained: seq<string>)
    requires ValidPlan(p)
    requires CountEntries(p, ctx, before) == Ok(start)
    ensures r == CountEntries(p, ctx, before + Tag(bucket, lines))
    ensures r.Ok? ==> retained == Unclaimed(p, bucket, lines)
  {
    hide Judge, Claim, CountEntries;
    ghost var tagged := Tag(bucket, lines);
    var counts := start;
    retained := [];
    var k := 0;
    assert before + tagged[..0] == before;
    while k < |lines|
      invariant 0 <= k <= |lines|
      invariant CountEntries(p, ctx, before + tagged[..k]) == Ok(counts)
      invariant retained == Unclaimed(p, bucket, lines[..k])
    {
      var e := Entry(bucket, lines[k]);
      var v := JudgeLine(p, ctx, e);
      ghost var done, next := before + tagged[..k], before + tagged[..k + 1];
      assert next == done + [e];
      assert before + tagged == next + tagged[k + 1..];
      assert lines[..k + 1] == lines[..k] + [lines[k]];
      CountNext(p, ctx, done, e);
      UnclaimedNext(p, bucket, lines[..k], lines[k]);
      if v.Refuse? {
        FirstErrorStands(p, ctx, next, tagged[k + 1..]);
        return Err(v.error), retained;
      }
      if v.Planned? {
        if counts[v.index] > 0 {
          FirstErrorStands(p, ctx, next, tagged[k + 1..]);
          return Err(Duplicate(v.index)), retained;
        }
        counts := counts[v.index := 1];
      } else {
        retained := retained + [lines[k]];
      }
      k := k + 1;
    }
    assert tagged[..k] == tagged && lines[..k] == lines;
    r := Ok(counts);
  }

  /** `classifyResources`, as its two loops run. */
  method ClassifyResourcesByLine(p: DestinationPlan, ctx: Context, outputs: seq<string>) returns (r: Result<ResourceWitness>)
    ensures r == ClassifyResources(p, ctx, outputs)
  {
    if !ValidPlan(p) { return Err(InvalidPlan); }
    if |outputs| != 3 { return Err(InvalidObservation); }
    var counts: Counts := NO_COUNTS;
    var residual: seq<string> := [];
    var bucket := 0;
    while bucket < 3
      invariant 0 <= bucket <= 3
      invariant CountEntries(p, ctx, EntriesBefore(outputs, bucket)) == Ok(counts)
      invariant residual == ResidualBefore(p, outputs, bucket)
    {
      var lines := SplitLines(outputs[bucket]);
      var counted, retained := CountLines(p, ctx, EntriesBefore(outputs, bucket), bucket, lines, counts);
      if counted.Err? {
        EntriesSplit(outputs, bucket + 1);
        FirstErrorStands(p, ctx, EntriesBefore(outputs, bucket + 1), EntriesFrom(outputs, bucket + 1));
        return Err(counted.error);
      }
      counts := counted.value;
      residual := residual + [JoinLines(retained)];
      bucket := bucket + 1;
    }
    r := Ok(ResourceWitness(counts, Texts(outputs), Texts(residual)));
  }

  // ---- what a successful classification means ----

  /** The lines that claim step i, in order. */
  function Claimed(p: DestinationPlan, entries: seq<Entry>, i: nat): (r: seq<Entry>)
    ensures |r| <= |entries|
    ensures forall k :: 0 <= k < |r| ==> r[k] in entries && Claim(p, r[k]) == i
  {
    if entries == [] then []
    else
      var last := entries[|entries| - 1];
      Claimed(p, entries[..|entries| - 1], i) + if Claim(p, last) == i then [last] else []
  }

  lemma {:induction false} ClaimedAppend(p: DestinationPlan, a: seq<Entry>, b: seq<Entry>, i: nat)
    ensures Claimed(p, a + b, i) == Claimed(p, a, i) + Claimed(p, b, i)
  {
    hide Claim;
    if b == [] {
      assert a + b == a;
    } else {
      var n := |b| - 1;
      ClaimedAppend(p, a, b[..n], i);
      assert (a + b)[..|a| + n] == a + b[..n];
    }
  }

  /** No line is refused and no step is claimed twice. */
  predicate Acceptable(p: DestinationPlan, ctx: Context, entries: seq<Entry>) {
    && (forall e :: e in entries ==> !Judge(p, ctx, e).Refuse?)
    && (forall i :: 0 <= i < 8 ==> |Claimed(p, entries, i)| <= 1)
  }

  /** The counting loop succeeds exactly on acceptable lines, and then each
      counter is the number of lines that claim its step. */
  lemma {:induction false} CountsAreClaims(p: DestinationPlan, ctx: Context, entries: seq<Entry>)
    ensures CountEntries(p, ctx, entries).Ok? <==> Acceptable(p, ctx, entries)
    ensures CountEntries(p, ctx, entries).Ok? ==>
      forall i :: 0 <= i < 8 ==> CountEntries(p, ctx, entries).value[i] == |Claimed(p, entries, i)| <= 1
  {
    hide Claim, Judge;
    if entries != [] {
      var n := |entries| - 1;
      var last := entries[n];
      CountsAreClaims(p, ctx, entries[..n]);
      assert entries == entries[..n] + [last];
      CountNext(p, ctx, entries[..n], last);
      forall i ensures Claimed(p, entries, i) == Claimed(p, entries[..n], i) + if Claim(p, last) == i then [last] else [] {
      }
      assert forall e :: e in entries <==> e in entries[..n] || e == last;
      if Acceptable(p, ctx, entries) {
        assert forall i :: 0 <= i < 8 ==> |Claimed(p, entries[..n], i)| <= |Claimed(p, entries, i)|;
        assert Acceptable(p, ctx, entries[..n]);
        if Judge(p, ctx, last).Planned? { assert |Claimed(p, entries, Claim(p, last))| <= 1; }
      }
    }
  }

  /** Every line is counted exactly once or retained. */
  lemma {:induction false} EveryLineAccounted(p: DestinationPlan, bucket: nat, lines: seq<string>)
    ensures |lines| == |Unclaimed(p, bucket, lines)| + TotalClaims(p, Tag(bucket, lines), 8)
  {
    hide Claim;
    if lines != [] {
      var n := |lines| - 1;
      EveryLineAccounted(p, bucket, lines[..n]);
      assert Tag(bucket, lines)[..n] == Tag(bucket, lines[..n]);
      TotalNext(p, Tag(bucket, lines[..n]), Entry(bucket, lines[n]), 8);
      assert Tag(bucket, lines) == Tag(bucket, lines[..n]) + [Entry(bucket, lines[n])];
    } else {
      NoClaims(p, Tag(bucket, lines), 8);
    }
  }

  function TotalClaims(p: DestinationPlan, entries: seq<Entry>, n: nat): nat {
    if n == 0 then 0 else TotalClaims(p, entries, n - 1) + |Claimed(p, entries, n - 1)|
  }

  lemma {:induction false} NoClaims(p: DestinationPlan, entries: seq<Entry>, n: nat)
    requires entries == []
    ensures TotalClaims(p, entries, n) == 0
  {
    if n > 0 { NoClaims(p, entries, n - 1); }
  }

  lemma ClaimedNext(p: DestinationPlan, entries: seq<Entry>, e: Entry, i: nat)
    ensures Claimed(p, entries + [e], i) == Claimed(p, entries, i) + if Claim(p, e) == i then [e] else []
  {
    hide Claim;
    assert (entries + [e])[..|entries|] == entries;
  }

  lemma {:induction false} TotalNext(p: DestinationPlan, entries: seq<Entry>, e: Entry, n: nat)
    ensures TotalClaims(p, entries + [e], n)
         == TotalClaims(p, entries, n) + if 0 <= Claim(p, e) < n then 1 else 0
  {
    hide Claim, Claimed;
    if n > 0 {
      TotalNext(p, entries, e, n - 1);
      ClaimedNext(p, entries, e, n - 1);
    }
  }

  // ---- the strict residual ----

  lemma {:induction false} UnclaimedAppend(p: DestinationPlan, bucket: nat, a: seq<string>, b: seq<string>)
    ensures Unclaimed(p, bucket, a + b) == Unclaimed(p, bucket, a) + Unclaimed(p, bucket, b)
  {
    hide Claim;
    if b == [] {
      assert a + b == a;
    } else {
      var n := |b| - 1;
      UnclaimedAppend(p, bucket, a, b[..n]);
      assert (a + b)[..|a| + n] == a + b[..n];
    }
  }

  /** Lines as the kernel prints them. */
  predicate PrintedLines(lines: seq<string>) {
    forall k :: 0 <= k < |lines| ==> lines[k] != "" && '\n' !in lines[k]
  }

  lemma EmptyLineUnclaimed(p: DestinationPlan, bucket: nat)
    ensures Claim(p, Entry(bucket, "")) == -1
  {
  }

  /** The residual text of a printed list is the join of its unclaimed lines,
      also when the list is empty and splits into one empty line. */
  lemma ResidualText(p: DestinationPlan, bucket: nat, lines: seq<string>)
    requires PrintedLines(lines)
    ensures JoinLines(Unclaimed(p, bucket, SplitLines(JoinLines(lines)))) == JoinLines(Unclaimed(p, bucket, lines))
  {
    SplitOfJoin(lines);
    if lines == [] {
      EmptyLineUnclaimed(p, bucket);
      UnclaimedNext(p, bucket, [], "");
      assert [] + [""] == [""];
    }
  }

  /** Adding one planned line anywhere to a printed list, or taking it away,
      leaves the residual text the same. */
  lemma ResidualIgnoresPlannedLine(p: DestinationPlan, bucket: nat, a: seq<string>, line: string, b: seq<string>)
    requires PrintedLines(a + b) && PrintedLines([line])
    requires Claim(p, Entry(bucket, line)) >= 0
    ensures JoinLines(Unclaimed(p, bucket, SplitLines(JoinLines(a + [line] + b))))
         == JoinLines(Unclaimed(p, bucket, SplitLines(JoinLines(a + b))))
  {
    hide Claim, SplitLines, JoinLines;
    forall k | 0 <= k < |a + [line] + b| ensures (a + [line] + b)[k] != "" && '\n' !in (a + [line] + b)[k] {
      if k < |a| { assert (a + b)[k] == a[k]; }
      else if k == |a| { assert [line][0] == line; }
      else { assert (a + b)[k - 1] == b[k - |a| - 1]; }
    }
    ResidualText(p, bucket, a + [line] + b);
    ResidualText(p, bucket, a + b);
    UnclaimedAppend(p, bucket, a + [line], b);
    UnclaimedNext(p, bucket, a, line);
    UnclaimedAppend(p, bucket, a, b);
    assert Unclaimed(p, bucket, a + [line] + b) == Unclaimed(p, bucket, a + b);
  }
}
