/** What the footprint classifier guarantees: it agrees with the strict one line
    by line, ignores every line disjoint from the reserved footprint, and its
    "all but one" digest pins a pending step down to two outcomes. */
module Footprints {
  import opened Text
  import opened Plan
  import opened Observation
  import opened Resources
  import opened Scoped
  import opened Exactness

  // ---- the two classifiers agree on every claimed line ----

  lemma {:induction false} JumpScanMeaning(p: DestinationPlan, f: seq<string>, i: nat, index: int)
    requires ValidPlan(p) && |f| >= 2
    requires JumpScan(p, f, i, index).Ok?
    ensures (exists k :: i <= k < |f| - 1 && f[k] == "-j" && f[k + 1] == PreChain(p)) ==>
      f[0] == "-A" && f[1] == "PREROUTING" && JumpScan(p, f, i, index).value == 4
    ensures (exists k :: i <= k < |f| - 1 && f[k] == "-j" && f[k + 1] == OutChain(p)) ==>
      f[0] == "-A" && f[1] == "OUTPUT" && JumpScan(p, f, i, index).value == 7
    ensures f[1] != "PREROUTING" && f[1] != "OUTPUT" ==> JumpScan(p, f, i, index).value == index
    decreases |f| - i
  {
    ChainNames(p);
    if i + 1 < |f| {
      var next :=
        if f[i] != "-j" && f[i] != "-g" then index
        else if f[i + 1] == PreChain(p) then 4 else if f[i + 1] == OutChain(p) then 7 else index;
      assert JumpScan(p, f, i, index) == JumpScan(p, f, i + 1, next);
      JumpScanMeaning(p, f, i + 1, next);
      JumpScanKeeps(p, f, i + 1, next);
    }
  }

  /** After a reserved jump the scan can only stay where it is. */
  lemma {:induction false} JumpScanKeeps(p: DestinationPlan, f: seq<string>, i: nat, index: int)
    requires ValidPlan(p) && |f| >= 2
    requires JumpScan(p, f, i, index).Ok?
    ensures index == 4 && f[1] == "PREROUTING" ==> JumpScan(p, f, i, index).value == 4
    ensures index == 7 && f[1] == "OUTPUT" ==> JumpScan(p, f, i, index).value == 7
    decreases |f| - i
  {
    ChainNames(p);
    if i + 1 < |f| {
      if f[i] != "-j" && f[i] != "-g" {
        JumpScanKeeps(p, f, i + 1, index);
      } else if f[i + 1] == PreChain(p) {
        JumpScanKeeps(p, f, i + 1, 4);
      } else if f[i + 1] == OutChain(p) {
        JumpScanKeeps(p, f, i + 1, 7);
      } else {
        JumpScanKeeps(p, f, i + 1, index);
      }
    }
  }

  /** A route the strict option loop accepts for the table has a table option. */
  lemma {:induction false} OptionNamesTable(p: DestinationPlan, ctx: Context, f: seq<string>, i: nat, found: bool, valid: bool)
    requires RouteOptions(p, f, i, found, valid).0 && !found
    ensures InReservedTable(p, ctx, f)
    decreases |f| - i
  {
    if f[i] == "table" {
      if f[i + 1] == FormatUint(p.table) {
        assert NamesReserved(p, ctx, f[i + 1]);
      } else {
        OptionNamesTable(p, ctx, f, i + 2, false, valid);
      }
    } else if f[i] == "scope" {
      OptionNamesTable(p, ctx, f, i + 2, found, valid && f[i + 1] == "host");
    } else if f[i] == "proto" {
      OptionNamesTable(p, ctx, f, i + 2, found, valid && (f[i + 1] == "boot" || f[i + 1] == "static"));
    } else {
      OptionNamesTable(p, ctx, f, i + 2, found, false);
    }
  }

  lemma FirewallAgreement(p: DestinationPlan, ctx: Context, f: seq<string>, line: string)
    requires ValidPlan(p)
    requires FirewallClaim(p, f) >= 0 && FirewallIndex(p, ctx, f, line).Ok?
    ensures FirewallIndex(p, ctx, f, line).value == FirewallClaim(p, f)
  {
    ChainNames(p);
    JumpScanMeaning(p, f, 2, ChainIndex(p, f));
  }

  /** If a line claims a step and the footprint classifier does not refuse it,
      it goes into that step's row. */
  lemma ClaimedLineHasItsRow(p: DestinationPlan, ctx: Context, routes: nat, e: Entry)
    requires ValidPlan(p)
    requires Claim(p, e) >= 0 && RowIndex(p, ctx, routes, e).Ok?
    ensures RowIndex(p, ctx, routes, e).value == Claim(p, e)
  {
    hide FirewallIndex, FirewallClaim, RouteOptions, LookupScan, JumpScan, TableId;
    var f := Fields(e.line);
    if e.bucket == 0 {
      assert |f| > 0 by { ClaimHasFields(p, f); }
      FirewallAgreement(p, ctx, f, e.line);
    } else if e.bucket == 1 {
      ParseOfFormat(p.priority);
      LookupScanIndex(p, ctx, f, 1, 1);
    } else {
      OptionNamesTable(p, ctx, f, 4, false, true);
    }
  }

  lemma ClaimHasFields(p: DestinationPlan, f: seq<string>)
    ensures FirewallClaim(p, f) >= 0 ==> |f| >= 2
  {
  }

  // ---- the rows are the claimed lines ----

  function RowTexts(entries: seq<Entry>): (r: seq<string>)
    ensures |r| == |entries|
  {
    seq(|entries|, k requires 0 <= k < |entries| => JoinFields(Fields(entries[k].line)))
  }

  predicate Agrees(p: DestinationPlan, ctx: Context, routes: nat, e: Entry) {
    RowIndex(p, ctx, routes, e) == Ok(Claim(p, e))
  }

  /** The footprint observation the classifier accepts: acceptable to the strict
      classifier, and every line is planned or outside the footprint. */
  predicate Clean(p: DestinationPlan, ctx: Context, entries: seq<Entry>) {
    && Acceptable(p, ctx, entries)
    && forall e :: e in entries ==> Agrees(p, ctx, |Claimed(p, entries, 0)|, e)
  }

  lemma {:induction false} RowsCoverClaims(p: DestinationPlan, ctx: Context, routes: nat, entries: seq<Entry>)
    requires ValidPlan(p) && RowEntries(p, ctx, routes, entries).Ok?
    ensures forall i :: 0 <= i < 8 ==> |RowEntries(p, ctx, routes, entries).value[i]| >= |Claimed(p, entries, i)|
    ensures (forall i :: 0 <= i < 8 ==> |RowEntries(p, ctx, routes, entries).value[i]| == |Claimed(p, entries, i)|) ==>
      forall e :: e in entries ==> Agrees(p, ctx, routes, e)
  {
    hide Claim, RowIndex, Fields, JoinFields;
    if entries != [] {
      var n := |entries| - 1;
      var last := entries[n];
      RowsCoverClaims(p, ctx, routes, entries[..n]);
      var before, rows := RowEntries(p, ctx, routes, entries[..n]).value, RowEntries(p, ctx, routes, entries).value;
      if Claim(p, last) >= 0 { ClaimedLineHasItsRow(p, ctx, routes, last); }
      var j := RowIndex(p, ctx, routes, last).value;
      assert forall i :: 0 <= i < 8 ==> |rows[i]| == |before[i]| + if i == j then 1 else 0;
      assert forall i: nat :: |Claimed(p, entries, i)| == |Claimed(p, entries[..n], i)| + if i == Claim(p, last) then 1 else 0;
      if forall i :: 0 <= i < 8 ==> |rows[i]| == |Claimed(p, entries, i)| {
        if j >= 0 { assert |rows[j]| == |Claimed(p, entries, j)|; }
        assert forall i :: 0 <= i < 8 ==> |before[i]| == |Claimed(p, entries[..n], i)|;
        assert entries == entries[..n] + [last];
        assert forall e :: e in entries <==> e in entries[..n] || e == last;
      }
    }
  }

  lemma ClaimedTexts(p: DestinationPlan, entries: seq<Entry>, last: Entry, i: nat)
    ensures RowTexts(Claimed(p, entries + [last], i))
      == RowTexts(Claimed(p, entries, i)) + if Claim(p, last) == i then [JoinFields(Fields(last.line))] else []
  {
    hide Claim, Fields, JoinFields, RowTexts;
    ClaimedNext(p, entries, last, i);
    var claimed := Claimed(p, entries, i);
    RowTextsNext(claimed, last);
    assert claimed + [] == claimed;
  }

  lemma {:induction false} AgreeingRows(p: DestinationPlan, ctx: Context, routes: nat, entries: seq<Entry>)
    requires forall e :: e in entries ==> Agrees(p, ctx, routes, e)
    ensures RowEntries(p, ctx, routes, entries).Ok?
    ensures forall i :: 0 <= i < 8 ==>
      RowEntries(p, ctx, routes, entries).value[i] == RowTexts(Claimed(p, entries, i))
  {
    hide Claim, RowIndex, RowTexts, Fields, JoinFields, Claimed;
    if entries != [] {
      var n := |entries| - 1;
      var last := entries[n];
      assert entries == entries[..n] + [last];
      assert forall e :: e in entries[..n] ==> e in entries;
      AgreeingRows(p, ctx, routes, entries[..n]);
      assert Agrees(p, ctx, routes, last);
      RowNext(p, ctx, routes, entries[..n], last);
      forall i | 0 <= i < 8 { ClaimedTexts(p, entries[..n], last, i); }
    } else {
      NoRowTexts();
    }
  }

  lemma RowTextsNext(entries: seq<Entry>, e: Entry)
    ensures RowTexts(entries + [e]) == RowTexts(entries) + [JoinFields(Fields(e.line))]
  {
    hide Fields, JoinFields;
  }

  lemma NoRowTexts()
    ensures RowTexts([]) == []
  {
  }

  lemma ClassifyClean(p: DestinationPlan, ctx: Context, outputs: seq<string>)
    ensures ClassifyScoped(p, ctx, outputs).Ok? <==> ValidPlan(p) && |outputs| == 3 && Clean(p, ctx, Entries(outputs))
    ensures ClassifyScoped(p, ctx, outputs).Ok? ==>
      var w := ClassifyScoped(p, ctx, outputs).value;
      && w.digest == Footprint(w.resources)
      && forall i :: 0 <= i < 8 ==>
           && w.counts[i] == |Claimed(p, Entries(outputs), i)| <= 1
           && w.resources[i] == RowTexts(Claimed(p, Entries(outputs), i))
  {
    hide Claim, RowIndex, CountEntries, RowEntries, Claimed, Entries, Judge;
    if ValidPlan(p) && |outputs| == 3 {
      var entries := Entries(outputs);
      CountsAreClaims(p, ctx, entries);
      var routes := |Claimed(p, entries, 0)|;
      if CountEntries(p, ctx, entries).Ok? {
        if RowEntries(p, ctx, routes, entries).Ok? { RowsCoverClaims(p, ctx, routes, entries); }
        if Clean(p, ctx, entries) { AgreeingRows(p, ctx, routes, entries); }
        else if ClassifyScoped(p, ctx, outputs).Ok? { assert false; }
        if ClassifyScoped(p, ctx, outputs).Ok? { AgreeingRows(p, ctx, routes, entries); }
      }
    }
  }

  // ---- what an accepted observation is, told from its lines ----

  /** The lines at the place of step i, in order. */
  function Placed(p: DestinationPlan, entries: seq<Entry>, i: nat): seq<Entry> {
    if entries == [] then []
    else
      var last := entries[|entries| - 1];
      Placed(p, entries[..|entries| - 1], i) + if AtPlace(p, i, last) then [last] else []
  }

  lemma {:induction false} PlacedAreClaimed(p: DestinationPlan, entries: seq<Entry>, i: nat)
    requires ValidPlan(p) && i < 8
    ensures Placed(p, entries, i) == Claimed(p, entries, i)
    decreases |entries|
  {
    hide AtPlace, Claim;
    if entries != [] {
      PlacedAreClaimed(p, entries[..|entries| - 1], i);
      ClaimIsPlace(p, entries[|entries| - 1], i);
    }
  }

  /** Every line at a planned place is the planned resource, one line a place. */
  predicate Authentic(p: DestinationPlan, ctx: Context, entries: seq<Entry>) {
    && (forall e, i :: e in entries && 0 <= i < 8 && AtPlace(p, i, e) ==> IsPlanned(p, ctx, i, e))
    && (forall i :: 0 <= i < 8 ==> |Placed(p, entries, i)| <= 1)
  }

  /** The line is a planned resource that does nothing else, or clear of all of it. */
  ghost predicate Settled(p: DestinationPlan, ctx: Context, e: Entry) {
    || (exists i :: 0 <= i < 8 && IsPlanned(p, ctx, i, e) && Alone(p, ctx, e))
    || ((forall i :: 0 <= i < 8 ==> !AtPlace(p, i, e)) && Clear(p, ctx, e))
  }

  lemma AuthenticExactly(p: DestinationPlan, ctx: Context, entries: seq<Entry>)
    requires ValidPlan(p)
    ensures Acceptable(p, ctx, entries) <==> Authentic(p, ctx, entries)
  {
    hide AtPlace, Judge, IsPlanned, Placed, Claimed;
    forall i | 0 <= i < 8 ensures Placed(p, entries, i) == Claimed(p, entries, i) { PlacedAreClaimed(p, entries, i); }
    forall e | e in entries
      ensures Judge(p, ctx, e).Refuse? <==> exists i :: 0 <= i < 8 && AtPlace(p, i, e) && !IsPlanned(p, ctx, i, e)
    {
      JudgeExactly(p, ctx, e);
    }
  }

  /** `classifyResources` accepts an observation exactly if every line at a planned
      place is the planned resource and no place is taken twice. A modified
      resource makes it fail. */
  lemma StrictExact(p: DestinationPlan, ctx: Context, outputs: seq<string>)
    ensures ClassifyResources(p, ctx, outputs).Ok? <==> ValidPlan(p) && |outputs| == 3 && Authentic(p, ctx, Entries(outputs))
    ensures ClassifyResources(p, ctx, outputs).Ok? ==>
      forall i :: 0 <= i < 8 ==> ClassifyResources(p, ctx, outputs).value.counts[i] == |Placed(p, Entries(outputs), i)|
  {
    hide Claimed, Entries, CountEntries, Acceptable, Authentic, Placed, ResidualBefore;
    if ValidPlan(p) && |outputs| == 3 {
      var entries := Entries(outputs);
      CountsAreClaims(p, ctx, entries);
      AuthenticExactly(p, ctx, entries);
      forall i | 0 <= i < 8 ensures Placed(p, entries, i) == Claimed(p, entries, i) { PlacedAreClaimed(p, entries, i); }
    }
  }

  lemma AgreesExactly(p: DestinationPlan, ctx: Context, routes: nat, e: Entry)
    requires ValidPlan(p)
    requires forall i :: 0 <= i < 8 && AtPlace(p, i, e) ==> IsPlanned(p, ctx, i, e)
    requires AtPlace(p, 0, e) ==> routes == 1
    ensures Agrees(p, ctx, routes, e) <==> Settled(p, ctx, e)
  {
    hide AtPlace, RowIndex, Claim, Clear, Alone, IsPlanned;
    forall i | 0 <= i < 8 ensures (Claim(p, e) == i <==> AtPlace(p, i, e)) && (IsPlanned(p, ctx, i, e) ==> AtPlace(p, i, e)) {
      ClaimIsPlace(p, e, i);
      PlannedIsPlaced(p, ctx, i, e);
    }
    NoClaimIsNoPlace(p, e);
    PassedOverExactly(p, ctx, routes, e);
    if Claim(p, e) >= 0 { OwnRowExactly(p, ctx, routes, e, Claim(p, e)); }
  }

  lemma PlannedIsPlaced(p: DestinationPlan, ctx: Context, i: nat, e: Entry)
    ensures IsPlanned(p, ctx, i, e) ==> AtPlace(p, i, e)
  {
  }

  lemma {:induction false} PlacedHolds(p: DestinationPlan, entries: seq<Entry>, i: nat, e: Entry)
    requires e in entries && AtPlace(p, i, e)
    ensures |Placed(p, entries, i)| >= 1
    decreases |entries|
  {
    hide AtPlace;
    if e != entries[|entries| - 1] { PlacedHolds(p, entries[..|entries| - 1], i, e); }
  }

  /** `classifyScoped` accepts an observation exactly if every line at a planned
      place is the planned resource, no place is taken twice, planned lines do
      nothing else, and every other line is clear of the footprint; its counters
      and rows are then the lines at each place. */
  lemma ClassifyExact(p: DestinationPlan, ctx: Context, outputs: seq<string>)
    ensures ClassifyScoped(p, ctx, outputs).Ok? <==>
      && ValidPlan(p) && |outputs| == 3 && Authentic(p, ctx, Entries(outputs))
      && forall e :: e in Entries(outputs) ==> Settled(p, ctx, e)
    ensures ClassifyScoped(p, ctx, outputs).Ok? ==>
      var w := ClassifyScoped(p, ctx, outputs).value;
      && w.digest == Footprint(w.resources)
      && forall i :: 0 <= i < 8 ==>
           && w.counts[i] == |Placed(p, Entries(outputs), i)|
           && w.resources[i] == RowTexts(Placed(p, Entries(outputs), i))
  {
    hide Claimed, Entries, ClassifyScoped, Acceptable, Placed, Settled, Agrees, AtPlace, IsPlanned, RowTexts;
    ClassifyClean(p, ctx, outputs);
    if ValidPlan(p) && |outputs| == 3 {
      var entries := Entries(outputs);
      AuthenticExactly(p, ctx, entries);
      forall i | 0 <= i < 8 ensures Placed(p, entries, i) == Claimed(p, entries, i) { PlacedAreClaimed(p, entries, i); }
      if Authentic(p, ctx, entries) {
        forall e | e in entries ensures Agrees(p, ctx, |Claimed(p, entries, 0)|, e) <==> Settled(p, ctx, e) {
          if AtPlace(p, 0, e) { PlacedHolds(p, entries, 0, e); }
          AgreesExactly(p, ctx, |Claimed(p, entries, 0)|, e);
        }
      }
    }
  }

  // ---- frame ----

  /** A line that does not touch the reserved footprint, told from its fields
      alone: no reserved chain prefix as chain or jump target, another priority,
      only resolvable other tables, no overlapping mark. */
  predicate Disjoint(p: DestinationPlan, ctx: Context, e: Entry) {
    var f := Fields(e.line);
    f == [] ||
    match e.bucket
    case 0 =>
      && |f| >= 2
      && !HasPrefix(f[1], p.prefix)
      && (forall k :: 2 <= k < |f| - 1 && (f[k] == "-j" || f[k] == "-g") ==> !HasPrefix(f[k + 1], p.prefix))
      && (forall k :: 0 <= k < |ctx.marks("firewall", e.line)| ==>
            !(ctx.marks("firewall", e.line)[k].kind == "packet" && Overlaps(p, ctx.marks("firewall", e.line)[k])))
    case 1 =>
      && ParseUint32(TrimColon(f[0])).Some? && ParseUint32(TrimColon(f[0])).value != p.priority
      && (forall k :: 1 <= k < |f| - 1 && (f[k] == "lookup" || f[k] == "table") ==>
            TableId(ctx, f[k + 1]).Some? && TableId(ctx, f[k + 1]).value != p.table)
      && (forall k :: 0 <= k < |ctx.marks("rule", e.line)| ==> !Overlaps(p, ctx.marks("rule", e.line)[k]))
    case 2 => forall k :: 0 <= k < |f| - 1 && f[k] == "table" ==> !NamesReserved(p, ctx, f[k + 1])
    case _ => true
  }

  lemma {:induction false} DisjointJumps(p: DestinationPlan, f: seq<string>, i: nat)
    requires |f| >= 2 && i >= 2
    requires HasPrefix(PreChain(p), p.prefix) && HasPrefix(OutChain(p), p.prefix)
    requires forall k :: i <= k < |f| - 1 && (f[k] == "-j" || f[k] == "-g") ==> !HasPrefix(f[k + 1], p.prefix)
    ensures JumpScan(p, f, i, -1) == Ok(-1)
    decreases |f| - i
  {
    if i + 1 < |f| { DisjointJumps(p, f, i + 1); }
  }

  lemma {:induction false} DisjointLookups(p: DestinationPlan, ctx: Context, f: seq<string>, i: nat)
    requires forall k :: i <= k < |f| - 1 && (f[k] == "lookup" || f[k] == "table") ==>
               TableId(ctx, f[k + 1]).Some? && TableId(ctx, f[k + 1]).value != p.table
    ensures LookupScan(p, ctx, f, i, -1) == Ok(-1)
    decreases |f| - i
  {
    if i + 1 < |f| { DisjointLookups(p, ctx, f, i + 1); }
  }

  lemma DisjointLine(p: DestinationPlan, ctx: Context, routes: nat, e: Entry)
    requires ValidPlan(p) && Disjoint(p, ctx, e)
    ensures Judge(p, ctx, e) == Retain
    ensures RowIndex(p, ctx, routes, e) == Ok(-1)
  {
    hide TableId, JumpScan, LookupScan, RouteOptions;
    var f := Fields(e.line);
    ChainNames(p);
    if f != [] {
      if e.bucket == 0 {
        DisjointJumps(p, f, 2);
        assert HasPrefix(PreChain(p), p.prefix) && HasPrefix(OutChain(p), p.prefix);
      } else if e.bucket == 1 {
        ParseOfFormat(p.priority);
        DisjointLookups(p, ctx, f, 1);
      } else if e.bucket == 2 && RouteOptions(p, f, 4, false, true).0 {
        OptionNamesTable(p, ctx, f, 4, false, true);
      }
    }
  }

  /** The lines that do touch the footprint, in order. */
  function Touching(p: DestinationPlan, ctx: Context, entries: seq<Entry>): seq<Entry> {
    if entries == [] then []
    else
      var last := entries[|entries| - 1];
      Touching(p, ctx, entries[..|entries| - 1]) + if Disjoint(p, ctx, last) then [] else [last]
  }

  lemma {:induction false} OnlyTouchingLinesMatter(p: DestinationPlan, ctx: Context, routes: nat, entries: seq<Entry>)
    requires ValidPlan(p)
    ensures CountEntries(p, ctx, Touching(p, ctx, entries)) == CountEntries(p, ctx, entries)
    ensures RowEntries(p, ctx, routes, Touching(p, ctx, entries)) == RowEntries(p, ctx, routes, entries)
  {
    hide Disjoint, Judge, RowIndex;
    if entries != [] {
      var n := |entries| - 1;
      var last := entries[n];
      OnlyTouchingLinesMatter(p, ctx, routes, entries[..n]);
      var kept := Touching(p, ctx, entries[..n]);
      if Disjoint(p, ctx, last) {
        DisjointLine(p, ctx, routes, last);
        assert Touching(p, ctx, entries) == kept;
      } else {
        CountNext(p, ctx, kept, last);
        RowNext(p, ctx, routes, kept, last);
      }
    }
  }

  /** Frame: however many disjoint lines are inserted, removed or moved, at any
      positions of any of the three outputs, the whole result stays the same:
      success or the same error, counters, rows, digest and every exclusion. */
  lemma DisjointLinesAreIgnored(p: DestinationPlan, ctx: Context, before: seq<string>, after: seq<string>)
    requires |before| == 3 && |after| == 3
    requires Touching(p, ctx, Entries(before)) == Touching(p, ctx, Entries(after))
    ensures ClassifyScoped(p, ctx, before) == ClassifyScoped(p, ctx, after)
  {
    hide Disjoint, Judge, RowIndex, Entries, CountEntries, RowEntries, Touching;
    if ValidPlan(p) {
      OnlyTouchingLinesMatter(p, ctx, 0, Entries(before));
      OnlyTouchingLinesMatter(p, ctx, 0, Entries(after));
      if CountEntries(p, ctx, Entries(before)).Ok? {
        var routes := CountEntries(p, ctx, Entries(before)).value[0];
        OnlyTouchingLinesMatter(p, ctx, routes, Entries(before));
        OnlyTouchingLinesMatter(p, ctx, routes, Entries(after));
      }
    }
  }

  lemma EmptyLineDisjoint(p: DestinationPlan, ctx: Context, e: Entry)
    requires e.line == ""
    ensures Disjoint(p, ctx, e)
  {
  }

  lemma {:induction false} TouchingAppend(p: DestinationPlan, ctx: Context, a: seq<Entry>, b: seq<Entry>)
    ensures Touching(p, ctx, a + b) == Touching(p, ctx, a) + Touching(p, ctx, b)
    decreases |b|
  {
    hide Disjoint;
    if b == [] {
      assert a + b == a;
    } else {
      var n := |b| - 1;
      TouchingAppend(p, ctx, a, b[..n]);
      assert (a + b)[..|a| + n] == a + b[..n];
    }
  }

  lemma {:induction false} NothingTouches(p: DestinationPlan, ctx: Context, entries: seq<Entry>)
    requires forall e :: e in entries ==> Disjoint(p, ctx, e)
    ensures Touching(p, ctx, entries) == []
    decreases |entries|
  {
    hide Disjoint;
    if entries != [] { NothingTouches(p, ctx, entries[..|entries| - 1]); }
  }

  // ---- the pending proof ----

  /** Two witnessed prefixes with the same "all but step i" digest differ at
      most by step i: they are equal, or one is the first i steps and the other
      the first i + 1. */
  lemma ExclusionPinsOneStep(p: DestinationPlan, ctx1: Context, out1: seq<string>, ctx2: Context, out2: seq<string>, i: nat, m: nat, n: nat)
    requires i < 8 && m <= 8 && n <= 8
    requires ClassifyScoped(p, ctx1, out1).Ok? && ClassifyScoped(p, ctx2, out2).Ok?
    requires CountsMatch(ClassifyScoped(p, ctx1, out1).value.counts, m)
    requires CountsMatch(ClassifyScoped(p, ctx2, out2).value.counts, n)
    requires Excluding(ClassifyScoped(p, ctx1, out1).value.resources, i) == Excluding(ClassifyScoped(p, ctx2, out2).value.resources, i)
    ensures m == n || (m == i && n == i + 1) || (m == i + 1 && n == i)
    ensures forall j :: 0 <= j < 8 && j != i ==>
      ClassifyScoped(p, ctx1, out1).value.resources[j] == ClassifyScoped(p, ctx2, out2).value.resources[j]
  {
    hide ClassifyScoped, Claimed, Entries;
    ClassifyClean(p, ctx1, out1);
    ClassifyClean(p, ctx2, out2);
    var r1, r2 := ClassifyScoped(p, ctx1, out1).value.resources, ClassifyScoped(p, ctx2, out2).value.resources;
    assert r1[i := []] == r2[i := []];
    forall j | 0 <= j < 8 && j != i ensures r1[j] == r2[j] && (Below(j, m) == Below(j, n)) {
      assert r1[i := []][j] == r1[j] && r2[i := []][j] == r2[j];
      assert |r1[j]| == ClassifyScoped(p, ctx1, out1).value.counts[j];
      assert |r2[j]| == ClassifyScoped(p, ctx2, out2).value.counts[j];
    }
    var low := if m < n then m else n;
    assert low < 8 && low != i ==> Below(low, m) == Below(low, n);
    assert low + 1 < 8 && low == i ==> Below(low + 1, m) == Below(low + 1, n);
  }

  predicate Below(j: nat, m: nat) {
    j < m
  }
}
