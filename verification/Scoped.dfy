/** scoped_linux.go: the footprint classifier. It looks only at lines that touch
    the reserved chains, priority, table or mark, and refuses foreign ones. */
module Scoped {
  import opened Text
  import opened Plan
  import opened Observation
  import Resources

  type Rows = s: seq<seq<string>> | |s| == 8 witness [[], [], [], [], [], [], [], []]

  const NO_ROWS: Rows := [[], [], [], [], [], [], [], []]

  datatype ScopedWitness = ScopedWitness(counts: Counts, resources: Rows, digest: Digest)

  /** `scopedWitness.excluding`: the footprint with one resource left out. */
  function Excluding(rows: Rows, index: int): Digest {
    Footprint(if 0 <= index < 8 then rows[index := []] else rows)
  }

  /** The jump loop over a firewall line. */
  function JumpScan(p: DestinationPlan, f: seq<string>, i: nat, index: int): Result<int>
    requires |f| >= 2
    decreases |f| - i
  {
    if i + 1 >= |f| then Ok(index)
    else if f[i] != "-j" && f[i] != "-g" then JumpScan(p, f, i + 1, index)
    else
      var target := f[i + 1];
      if target == PreChain(p) || target == OutChain(p) then
        if f[0] != "-A" || f[i] != "-j"
           || (target == PreChain(p) && f[1] != "PREROUTING") || (target == OutChain(p) && f[1] != "OUTPUT")
        then Err(ForeignReference)
        else JumpScan(p, f, i + 1, if target == PreChain(p) then 4 else 7)
      else if HasPrefix(target, p.prefix) then Err(PrefixCollision)
      else JumpScan(p, f, i + 1, index)
  }

  predicate Overlaps(p: DestinationPlan, use: MarkUse) {
    use.mask & p.mask != 0
  }

  function ChainIndex(p: DestinationPlan, f: seq<string>): int
    requires |f| >= 2
  {
    if f[0] == "-N" && f[1] == PreChain(p) then 2
    else if f[0] == "-N" && f[1] == OutChain(p) then 5
    else if f[0] == "-A" && f[1] == PreChain(p) then 3
    else if f[0] == "-A" && f[1] == OutChain(p) then 6
    else -1
  }

  function FirewallIndex(p: DestinationPlan, ctx: Context, f: seq<string>, line: string): Result<int> {
    if |f| < 2 then Err(Unrecognized)
    else
      var scan := JumpScan(p, f, 2, ChainIndex(p, f));
      if scan.Err? then scan
      else if HasPrefix(f[1], p.prefix) && f[1] != PreChain(p) && f[1] != OutChain(p) then Err(PrefixCollision)
      else if scan.value < 0
           && exists k :: 0 <= k < |ctx.marks("firewall", line)|
                && ctx.marks("firewall", line)[k].kind == "packet" && Overlaps(p, ctx.marks("firewall", line)[k])
      then Err(MarkOverlap)
      else scan
  }

  /** The routing table a policy rule names, by number or by alias. */
  function TableId(ctx: Context, name: string): Option<nat> {
    if ParseUint32(name).Some? then ParseUint32(name)
    else if name in ctx.aliases then Some(ctx.aliases[name])
    else if name == "local" then Some(255)
    else if name == "main" then Some(254)
    else if name == "default" then Some(253)
    else None
  }

  function LookupScan(p: DestinationPlan, ctx: Context, f: seq<string>, i: nat, index: int): Result<int>
    decreases |f| - i
  {
    if i + 1 >= |f| then Ok(index)
    else if f[i] != "lookup" && f[i] != "table" then LookupScan(p, ctx, f, i + 1, index)
    else if TableId(ctx, f[i + 1]).None? then Err(UnresolvedAlias)
    else if TableId(ctx, f[i + 1]).value == p.table && index != 1 then Err(ForeignReference)
    else LookupScan(p, ctx, f, i + 1, index)
  }

  function PolicyIndex(p: DestinationPlan, ctx: Context, f: seq<string>, line: string): Result<int>
    requires |f| > 0
  {
    var priority := ParseUint32(TrimColon(f[0]));
    if priority.None? then Err(Unrecognized)
    else
      var scan := LookupScan(p, ctx, f, 1, if priority.value == p.priority then 1 else -1);
      if scan.Err? then scan
      else if scan.value != 1
           && exists k :: 0 <= k < |ctx.marks("rule", line)| && Overlaps(p, ctx.marks("rule", line)[k])
      then Err(MarkOverlap)
      else scan
  }

  /** Some `table` option names the planned table, by number or by alias. */
  predicate InReservedTable(p: DestinationPlan, ctx: Context, f: seq<string>) {
    exists i :: 0 <= i < |f| - 1 && f[i] == "table" && NamesReserved(p, ctx, f[i + 1])
  }

  predicate NamesReserved(p: DestinationPlan, ctx: Context, name: string) {
    name == FormatUint(p.table) || (name in ctx.aliases && ctx.aliases[name] == p.table)
  }

  function RouteIndex(p: DestinationPlan, ctx: Context, routes: nat, f: seq<string>): Result<int> {
    if !InReservedTable(p, ctx, f) then Ok(-1)
    else if !Resources.LoopbackRoute(p, f) then Err(ForeignRoute)
    else if routes != 1 then Err(RouteUnverified)
    else Ok(0)
  }

  /** The row a line belongs to, -1 for none, or the reason it is a conflict.
      `routes` is the strict classifier's count of the planned route. */
  function RowIndex(p: DestinationPlan, ctx: Context, routes: nat, e: Entry): (r: Result<int>)
    ensures r.Ok? ==> -1 <= r.value < 8
  {
    var f := Fields(e.line);
    if f == [] then Ok(-1)
    else if e.bucket == 0 then
      JumpScanIndex(p, f, 2, if |f| < 2 then -1 else ChainIndex(p, f));
      FirewallIndex(p, ctx, f, e.line)
    else if e.bucket == 1 then
      LookupScanIndex(p, ctx, f, 1, if ParseUint32(TrimColon(f[0])) == Some(p.priority) then 1 else -1);
      PolicyIndex(p, ctx, f, e.line)
    else if e.bucket == 2 then RouteIndex(p, ctx, routes, f)
    else Ok(-1)
  }

  /** The jump loop ends with the last reserved jump it allowed. */
  lemma {:induction false} JumpScanIndex(p: DestinationPlan, f: seq<string>, i: nat, index: int)
    ensures |f| >= 2 && JumpScan(p, f, i, index).Ok? ==>
      JumpScan(p, f, i, index).value in {index, 4, 7}
    decreases |f| - i
  {
    if |f| >= 2 && i + 1 < |f| {
      JumpScanIndex(p, f, i + 1, index);
      JumpScanIndex(p, f, i + 1, 4);
      JumpScanIndex(p, f, i + 1, 7);
    }
  }

  lemma {:induction false} LookupScanIndex(p: DestinationPlan, ctx: Context, f: seq<string>, i: nat, index: int)
    ensures LookupScan(p, ctx, f, i, index).Ok? ==> LookupScan(p, ctx, f, i, index).value == index
    decreases |f| - i
  {
    if i + 1 < |f| { LookupScanIndex(p, ctx, f, i + 1, index); }
  }

  function RowStep(p: DestinationPlan, ctx: Context, routes: nat, rows: Rows, e: Entry): Result<Rows> {
    match RowIndex(p, ctx, routes, e)
    case Err(error) => Err(error)
    case Ok(i) => Ok(if i < 0 then rows else rows[i := rows[i] + [JoinFields(Fields(e.line))]])
  }

  function RowAfter(p: DestinationPlan, ctx: Context, routes: nat, before: Result<Rows>, e: Entry): Result<Rows> {
    if before.Err? then before else RowStep(p, ctx, routes, before.value, e)
  }

  function RowEntries(p: DestinationPlan, ctx: Context, routes: nat, entries: seq<Entry>): Result<Rows> {
    if entries == [] then Ok(NO_ROWS)
    else RowAfter(p, ctx, routes, RowEntries(p, ctx, routes, entries[..|entries| - 1]), entries[|entries| - 1])
  }

  /** The strict classification, reduced to its counters. */
  function StrictCounts(p: DestinationPlan, ctx: Context, outputs: seq<string>): Result<Counts> {
    if !ValidPlan(p) then Err(InvalidPlan)
    else if |outputs| != 3 then Err(InvalidObservation)
    else Resources.CountEntries(p, ctx, Entries(outputs))
  }

  function Finish(counts: Counts, rows: Result<Rows>): Result<ScopedWitness> {
    if rows.Err? then Err(rows.error)
    else if exists i :: 0 <= i < 8 && |rows.value[i]| != counts[i] then Err(MixedObservation)
    else Ok(ScopedWitness(counts, rows.value, Excluding(rows.value, -1)))
  }

  /** `classifyScoped` */
  function ClassifyScoped(p: DestinationPlan, ctx: Context, outputs: seq<string>): Result<ScopedWitness> {
    var counted := StrictCounts(p, ctx, outputs);
    if counted.Err? then Err(counted.error)
    else Finish(counted.value, RowEntries(p, ctx, counted.value[0], Entries(outputs)))
  }

  // ---- the loops ----

  lemma {:induction false} FirstConflictStands(p: DestinationPlan, ctx: Context, routes: nat, done: seq<Entry>, rest: seq<Entry>)
    requires RowEntries(p, ctx, routes, done).Err?
    ensures RowEntries(p, ctx, routes, done + rest) == RowEntries(p, ctx, routes, done)
  {
    hide RowIndex;
    if rest == [] {
      assert done + rest == done;
    } else {
      var last := |rest| - 1;
      FirstConflictStands(p, ctx, routes, done, rest[..last]);
      assert (done + rest)[..|done| + last] == done + rest[..last];
    }
  }

  lemma RowNext(p: DestinationPlan, ctx: Context, routes: nat, done: seq<Entry>, e: Entry)
    ensures RowEntries(p, ctx, routes, done + [e]) == RowAfter(p, ctx, routes, RowEntries(p, ctx, routes, done), e)
  {
    assert (done + [e])[..|done|] == done;
  }

  method FirewallLine(p: DestinationPlan, ctx: Context, f: seq<string>, line: string) returns (r: Result<int>)
    requires ValidPlan(p)
    ensures r == FirewallIndex(p, ctx, f, line)
  {
    ChainNames(p);
    if |f| < 2 { return Err(Unrecognized); }
    var pre, out := PreChain(p), OutChain(p);
    var index := -1;
    if f[0] == "-N" && (f[1] == pre || f[1] == out) {
      index := if f[1] == pre then 2 else 5;
    }
    if f[0] == "-A" && (f[1] == pre || f[1] == out) {
      index := if f[1] == pre then 3 else 6;
    }
    var i := 2;
    while i + 1 < |f|
      invariant i >= 2
      invariant JumpScan(p, f, 2, ChainIndex(p, f)) == JumpScan(p, f, i, index)
    {
      if f[i] == "-j" || f[i] == "-g" {
        var target := f[i + 1];
        if target == pre || target == out {
          if f[0] != "-A" || f[i] != "-j" || (target == pre && f[1] != "PREROUTING") || (target == out && f[1] != "OUTPUT") {
            return Err(ForeignReference);
          }
          index := if target == pre then 4 else 7;
        } else if HasPrefix(target, p.prefix) {
          return Err(PrefixCollision);
        }
      }
      i := i + 1;
    }
    if HasPrefix(f[1], p.prefix) && f[1] != pre && f[1] != out { return Err(PrefixCollision); }
    if index < 0 {
      var uses := ctx.marks("firewall", line);
      for k := 0 to |uses|
        invariant forall j :: 0 <= j < k ==> !(uses[j].kind == "packet" && Overlaps(p, uses[j]))
      {
        if uses[k].kind == "packet" && Overlaps(p, uses[k]) { return Err(MarkOverlap); }
      }
    }
    r := Ok(index);
  }

  method PolicyLine(p: DestinationPlan, ctx: Context, f: seq<string>, line: string) returns (r: Result<int>)
    requires |f| > 0
    ensures r == PolicyIndex(p, ctx, f, line)
  {
    var priority := ParseUint32(TrimColon(f[0]));
    if priority.None? { return Err(Unrecognized); }
    var index := if priority.value == p.priority then 1 else -1;
    var i := 1;
    while i + 1 < |f|
      invariant i >= 1
      invariant LookupScan(p, ctx, f, 1, index) == LookupScan(p, ctx, f, i, index)
    {
      if f[i] == "lookup" || f[i] == "table" {
        var id := TableId(ctx, f[i + 1]);
        if id.None? { return Err(UnresolvedAlias); }
        if id.value == p.table && index != 1 { return Err(ForeignReference); }
      }
      i := i + 1;
    }
    if index != 1 {
      var uses := ctx.marks("rule", line);
      for k := 0 to |uses|
        invariant forall j :: 0 <= j < k ==> !Overlaps(p, uses[j])
      {
        if Overlaps(p, uses[k]) { return Err(MarkOverlap); }
      }
    }
    r := Ok(index);
  }

  method RouteLine(p: DestinationPlan, ctx: Context, routes: nat, f: seq<string>) returns (r: Result<int>)
    ensures r == RouteIndex(p, ctx, routes, f)
  {
    var reserved := false;
    var i := 0;
    while i + 1 < |f|
      invariant 0 <= i
      invariant reserved == exists k :: 0 <= k < i && k < |f| - 1 && f[k] == "table" && NamesReserved(p, ctx, f[k + 1])
    {
      if f[i] == "table" && NamesReserved(p, ctx, f[i + 1]) { reserved := true; }
      i := i + 1;
    }
    if !reserved { return Ok(-1); }
    if !Resources.LoopbackRoute(p, f) { return Err(ForeignRoute); }
    if routes != 1 { return Err(RouteUnverified); }
    r := Ok(0);
  }

  /** `classifyScoped`, as its loop runs over every line of every output. */
  method ClassifyScopedByLine(p: DestinationPlan, ctx: Context, outputs: seq<string>) returns (r: Result<ScopedWitness>)
    ensures r == ClassifyScoped(p, ctx, outputs)
  {
    hide Resources.CountEntries, RowEntries, Entries, RowIndex, Resources.ResidualBefore;
    var strict := Resources.ClassifyResourcesByLine(p, ctx, outputs);
    if strict.Err? { return Err(strict.error); }
    var counts := strict.value.counts;
    var rows := RowsOf(p, ctx, counts[0], Entries(outputs));
    r := Finish(counts, rows);
  }

  method RowsOf(p: DestinationPlan, ctx: Context, routes: nat, entries: seq<Entry>) returns (r: Result<Rows>)
    requires ValidPlan(p)
    ensures r == RowEntries(p, ctx, routes, entries)
  {
    hide FirewallIndex, PolicyIndex, RouteIndex;
    var rows: Rows := NO_ROWS;
    var k := 0;
    assert entries[..0] == [];
    while k < |entries|
      invariant 0 <= k <= |entries|
      invariant RowEntries(p, ctx, routes, entries[..k]) == Ok(rows)
    {
      var e := entries[k];
      var f := Fields(e.line);
      var index: Result<int> := Ok(-1);
      if f != [] {
        match e.bucket {
          case 0 => index := FirewallLine(p, ctx, f, e.line);
          case 1 => index := PolicyLine(p, ctx, f, e.line);
          case 2 => index := RouteLine(p, ctx, routes, f);
          case _ =>
        }
      }
      assert entries[..k + 1] == entries[..k] + [e];
      RowNext(p, ctx, routes, entries[..k], e);
      assert index == RowIndex(p, ctx, routes, e);
      if index.Err? {
        FirstConflictStands(p, ctx, routes, entries[..k + 1], entries[k + 1..]);
        assert entries == entries[..k + 1] + entries[k + 1..];
        return Err(index.error);
      }
      if index.value >= 0 {
        rows := rows[index.value := rows[index.value] + [JoinFields(f)]];
      }
      k := k + 1;
    }
    assert entries[..k] == entries;
    r := Ok(rows);
  }
}
