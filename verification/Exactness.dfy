/** What the two classifiers accept, told from the words of a line alone: which
    lines stand at a planned place, which of those are exactly the planned
    resource, and which other lines stay clear of the reserved footprint. */
module Exactness {
  import opened Text
  import opened Plan
  import opened Observation
  import opened Resources
  import opened Scoped
  import opened Tools

  // ---- routes: options come in pairs ----

  predicate KernelOption(name: string, value: string) {
    name == "table" || (name == "scope" && value == "host") || (name == "proto" && (value == "boot" || value == "static"))
  }

  /** Whole pairs, each one an option the kernel may print for such a route. */
  predicate KernelOptions(f: seq<string>, i: nat) {
    (|f| - i) % 2 == 0 && forall k :: i <= k < |f| - 1 && (k - i) % 2 == 0 ==> KernelOption(f[k], f[k + 1])
  }

  lemma {:induction false} OptionsMeaning(p: DestinationPlan, f: seq<string>, i: nat, found: bool, valid: bool, before: Option<string>)
    requires i <= |f| && (found <==> before == Some(FormatUint(p.table)))
    ensures RouteOptions(p, f, i, found, valid).0 <==> LastTable(f, i, before) == Some(FormatUint(p.table))
    ensures RouteOptions(p, f, i, found, valid).1 <==> valid && KernelOptions(f, i)
    decreases |f| - i
  {
    hide FormatUint;
    if i + 1 < |f| {
      var table := FormatUint(p.table);
      var found1 := if f[i] == "table" then f[i + 1] == table else found;
      var valid1 := valid && KernelOption(f[i], f[i + 1]);
      OptionsMeaning(p, f, i + 2, found1, valid1, if f[i] == "table" then Some(f[i + 1]) else before);
      assert RouteOptions(p, f, i, found, valid) == RouteOptions(p, f, i + 2, found1, valid1);
      if KernelOption(f[i], f[i + 1]) && KernelOptions(f, i + 2) {
        forall k | i <= k < |f| - 1 && (k - i) % 2 == 0 ensures KernelOption(f[k], f[k + 1]) {
          if k > i { assert i + 2 <= k && (k - (i + 2)) % 2 == 0; }
        }
      }
      if KernelOptions(f, i) {
        forall k | i + 2 <= k < |f| - 1 && (k - (i + 2)) % 2 == 0 ensures KernelOption(f[k], f[k + 1]) {
          assert (k - i) % 2 == 0;
        }
      }
    }
  }

  // ---- places and what belongs there ----

  /** The line stands where step i is looked for. */
  predicate AtPlace(p: DestinationPlan, i: nat, e: Entry) {
    var f := Fields(e.line);
    match i
    case 0 =>
      && e.bucket == 2 && |f| >= 4 && f[0] == "local"
      && (f[1] == AddressText(p.address) || f[1] == AddressText(p.address) + "/32") && f[2] == "dev" && f[3] == "lo"
      && LastTable(f, 4, None) == Some(FormatUint(p.table))
    case 1 => e.bucket == 1 && |f| > 0 && f[0] == FormatUint(p.priority) + ":"
    case 2 => e.bucket == 0 && f == ["-N", PreChain(p)]
    case 3 => e.bucket == 0 && |f| >= 2 && f[0] == "-A" && f[1] == PreChain(p)
    case 4 => e.bucket == 0 && |f| >= 2 && f[0] == "-A" && f[1] == "PREROUTING" && Jumps(f, "-j", PreChain(p))
    case 5 => e.bucket == 0 && f == ["-N", OutChain(p)]
    case 6 => e.bucket == 0 && |f| >= 2 && f[0] == "-A" && f[1] == OutChain(p)
    case 7 => e.bucket == 0 && |f| >= 2 && f[0] == "-A" && f[1] == "OUTPUT" && Jumps(f, "-j", OutChain(p))
    case _ => false
  }

  /** The mark field of a policy line is read as exactly the planned mark. */
  predicate ReadsMark(p: DestinationPlan, ctx: Context, line: string) {
    var uses := ctx.marks("rule", line);
    |uses| == 1 && uses[0].value == p.mark && uses[0].mask == p.mask
  }

  /** The line at the place of step i is the planned resource: the route with only
      options of the kernel's, the policy rule word for word and mark for mark,
      the chain, and each rule that its exact check finds. */
  predicate IsPlanned(p: DestinationPlan, ctx: Context, i: nat, e: Entry) {
    var f := Fields(e.line);
    AtPlace(p, i, e) &&
    match i
    case 0 => KernelOptions(f, 4)
    case 1 =>
      && |f| == 7 && f[1] == "from" && f[2] == "all" && f[3] == "fwmark" && f[5] == "lookup" && f[6] == FormatUint(p.table)
      && ReadsMark(p, ctx, e.line)
    case 2 => true
    case 5 => true
    case _ => i in ctx.exact
  }

  /** Places are disjoint, and claiming a step is standing at its place. */
  lemma ClaimIsPlace(p: DestinationPlan, e: Entry, i: nat)
    requires ValidPlan(p) && i < 8
    ensures Claim(p, e) == i <==> AtPlace(p, i, e)
  {
    hide AddressText, FormatUint, Fields, RouteOptions, LastTable;
    ChainNames(p);
    var f := Fields(e.line);
    if |f| >= 4 { OptionsMeaning(p, f, 4, false, true, None); }
    assert JumpsTo(f, PreChain(p)) <==> Jumps(f, "-j", PreChain(p));
    assert JumpsTo(f, OutChain(p)) <==> Jumps(f, "-j", OutChain(p));
  }

  lemma NoClaimIsNoPlace(p: DestinationPlan, e: Entry)
    requires ValidPlan(p)
    ensures Claim(p, e) == -1 <==> forall i :: 0 <= i < 8 ==> !AtPlace(p, i, e)
  {
    hide Claim, AtPlace;
    forall i | 0 <= i < 8 ensures Claim(p, e) == i <==> AtPlace(p, i, e) { ClaimIsPlace(p, e, i); }
    assert Claim(p, e) >= 0 ==> AtPlace(p, Claim(p, e), e);
  }

  /** The strict classifier plans a line exactly if it is the planned resource,
      refuses it exactly if it is at a place without being it, and retains it
      exactly if it is at none. */
  lemma JudgeExactly(p: DestinationPlan, ctx: Context, e: Entry)
    requires ValidPlan(p)
    ensures forall i :: 0 <= i < 8 ==> (Judge(p, ctx, e) == Planned(i) <==> IsPlanned(p, ctx, i, e))
    ensures Judge(p, ctx, e).Refuse? <==> exists i :: 0 <= i < 8 && AtPlace(p, i, e) && !IsPlanned(p, ctx, i, e)
    ensures Judge(p, ctx, e).Retain? <==> forall i :: 0 <= i < 8 ==> !AtPlace(p, i, e)
  {
    hide AtPlace, Claim;
    forall i | 0 <= i < 8
      ensures Claim(p, e) == i <==> AtPlace(p, i, e)
      ensures AtPlace(p, i, e) ==> Judge(p, ctx, e) == if IsPlanned(p, ctx, i, e) then Planned(i) else Judge(p, ctx, e)
      ensures AtPlace(p, i, e) ==> (Judge(p, ctx, e).Refuse? <==> !IsPlanned(p, ctx, i, e))
    {
      ClaimIsPlace(p, e, i);
      if AtPlace(p, i, e) { JudgeAtPlace(p, ctx, e, i); }
    }
    NoClaimIsNoPlace(p, e);
  }

  lemma JudgeAtPlace(p: DestinationPlan, ctx: Context, e: Entry, i: nat)
    requires ValidPlan(p) && i < 8 && AtPlace(p, i, e)
    ensures IsPlanned(p, ctx, i, e) ==> Judge(p, ctx, e) == Planned(i)
    ensures !IsPlanned(p, ctx, i, e) ==> Judge(p, ctx, e).Refuse?
  {
    hide AddressText, FormatUint, Fields, RouteOptions, LastTable, Claim, PreChain, OutChain, KernelOptions;
    ClaimIsPlace(p, e, i);
    var f := Fields(e.line);
    if i == 0 { OptionsMeaning(p, f, 4, false, true, None); }
  }

  // ---- the scoped classifier ----

  /** Any jump or goto to a name under the reserved prefix. */
  predicate PrefixedJump(p: DestinationPlan, f: seq<string>, k: nat) {
    2 <= k < |f| - 1 && (f[k] == "-j" || f[k] == "-g") && HasPrefix(f[k + 1], p.prefix)
  }

  predicate EntryJump(p: DestinationPlan, f: seq<string>, k: nat) {
    2 <= k < |f| - 1 && f[k] == "-j" && f[0] == "-A"
    && ((f[1] == "PREROUTING" && f[k + 1] == PreChain(p)) || (f[1] == "OUTPUT" && f[k + 1] == OutChain(p)))
  }

  predicate LookupAt(f: seq<string>, k: nat) {
    1 <= k < |f| - 1 && (f[k] == "lookup" || f[k] == "table")
  }

  predicate PacketOverlap(p: DestinationPlan, ctx: Context, line: string) {
    exists k :: 0 <= k < |ctx.marks("firewall", line)|
      && ctx.marks("firewall", line)[k].kind == "packet" && Overlaps(p, ctx.marks("firewall", line)[k])
  }

  predicate RuleOverlap(p: DestinationPlan, ctx: Context, line: string) {
    exists k :: 0 <= k < |ctx.marks("rule", line)| && Overlaps(p, ctx.marks("rule", line)[k])
  }

  /** The line uses nothing that is reserved: no prefixed name, no other mark bit,
      not the priority, no reserved or unresolvable table. */
  ghost predicate Clear(p: DestinationPlan, ctx: Context, e: Entry) {
    var f := Fields(e.line);
    f == [] ||
    match e.bucket
    case 0 =>
      && |f| >= 2 && (forall k :: !PrefixedJump(p, f, k))
      && (HasPrefix(f[1], p.prefix) ==> f[1] in {PreChain(p), OutChain(p)} && f[0] !in {"-A", "-N"})
      && !PacketOverlap(p, ctx, e.line)
    case 1 =>
      && ParseUint32(TrimColon(f[0])).Some? && ParseUint32(TrimColon(f[0])).value != p.priority
      && (forall k :: LookupAt(f, k) ==> TableId(ctx, f[k + 1]).Some? && TableId(ctx, f[k + 1]).value != p.table)
      && !RuleOverlap(p, ctx, e.line)
    case 2 => !InReservedTable(p, ctx, f)
    case _ => true
  }

  /** A planned line that does nothing else: no other prefixed jump, no table that
      cannot be resolved. */
  ghost predicate Alone(p: DestinationPlan, ctx: Context, e: Entry) {
    var f := Fields(e.line);
    match e.bucket
    case 0 => forall k :: PrefixedJump(p, f, k) ==> EntryJump(p, f, k)
    case 1 => forall k :: LookupAt(f, k) ==> TableId(ctx, f[k + 1]).Some?
    case _ => true
  }

  lemma {:induction false} JumpScanExactly(p: DestinationPlan, f: seq<string>, i: nat, index: int)
    requires ValidPlan(p) && |f| >= 2 && i >= 2
    ensures JumpScan(p, f, i, index).Ok? <==> forall k :: i <= k && PrefixedJump(p, f, k) ==> EntryJump(p, f, k)
    ensures JumpScan(p, f, i, index).Ok? && (exists k :: i <= k && PrefixedJump(p, f, k)) ==> JumpScan(p, f, i, index).value in {4, 7}
    ensures JumpScan(p, f, i, index).Ok? && (forall k :: i <= k ==> !PrefixedJump(p, f, k)) ==> JumpScan(p, f, i, index).value == index
    decreases |f| - i
  {
    ChainNames(p);
    if i + 1 < |f| {
      var next := if f[i] != "-j" && f[i] != "-g" then index
        else if f[i + 1] == PreChain(p) then 4 else if f[i + 1] == OutChain(p) then 7 else index;
      assert PrefixedJump(p, f, i) <==> (f[i] == "-j" || f[i] == "-g") && HasPrefix(f[i + 1], p.prefix);
      assert EntryJump(p, f, i) ==> PrefixedJump(p, f, i);
      if PrefixedJump(p, f, i) ==> EntryJump(p, f, i) {
        assert JumpScan(p, f, i, index) == JumpScan(p, f, i + 1, next);
        JumpScanExactly(p, f, i + 1, next);
        assert forall k :: PrefixedJump(p, f, k) && i <= k ==> k == i || i + 1 <= k;
      }
    }
  }

  lemma {:induction false} LookupScanExactly(p: DestinationPlan, ctx: Context, f: seq<string>, i: nat, index: int)
    requires i >= 1
    ensures LookupScan(p, ctx, f, i, index).Ok? <==>
      forall k :: i <= k && LookupAt(f, k) ==> TableId(ctx, f[k + 1]).Some? && (index == 1 || TableId(ctx, f[k + 1]).value != p.table)
    ensures LookupScan(p, ctx, f, i, index).Ok? ==> LookupScan(p, ctx, f, i, index).value == index
    decreases |f| - i
  {
    hide TableId;
    if i + 1 < |f| {
      LookupScanExactly(p, ctx, f, i + 1, index);
      assert LookupAt(f, i) <==> f[i] == "lookup" || f[i] == "table";
      assert forall k :: LookupAt(f, k) && i <= k ==> k == i || i + 1 <= k;
    }
  }

  /** The scoped classifier passes a line over exactly if it is clear. */
  lemma PassedOverExactly(p: DestinationPlan, ctx: Context, routes: nat, e: Entry)
    requires ValidPlan(p)
    ensures RowIndex(p, ctx, routes, e) == Ok(-1) <==> Clear(p, ctx, e)
  {
    hide TableId, JumpScan, LookupScan, Fields, ParseUint32;
    ChainNames(p);
    var f := Fields(e.line);
    if f != [] {
      if e.bucket == 0 && |f| >= 2 {
        JumpScanExactly(p, f, 2, ChainIndex(p, f));
        assert forall k :: PrefixedJump(p, f, k) ==> 2 <= k;
      } else if e.bucket == 1 && ParseUint32(TrimColon(f[0])).Some? {
        LookupScanExactly(p, ctx, f, 1, if ParseUint32(TrimColon(f[0])).value == p.priority then 1 else -1);
      }
    }
  }

  /** A planned line goes into its own row exactly if it does nothing else; the
      route needs to be the only one the strict classifier counted. */
  lemma OwnRowExactly(p: DestinationPlan, ctx: Context, routes: nat, e: Entry, i: nat)
    requires ValidPlan(p) && i < 8 && IsPlanned(p, ctx, i, e)
    ensures RowIndex(p, ctx, routes, e) == Ok(i) <==> Alone(p, ctx, e) && (i == 0 ==> routes == 1)
  {
    hide TableId, LookupScan, JumpScan, Fields, ParseUint32, FormatUint, AddressText, LastTable, KernelOptions;
    ChainNames(p);
    var f := Fields(e.line);
    if e.bucket == 0 {
      OwnFirewallRow(p, ctx, e, i);
    } else if e.bucket == 1 {
      ParseOfFormat(p.priority);
      LookupScanExactly(p, ctx, f, 1, 1);
    } else {
      LastTableReserved(p, ctx, f, 4, None);
    }
  }

  lemma OwnFirewallRow(p: DestinationPlan, ctx: Context, e: Entry, i: nat)
    requires ValidPlan(p) && i < 8 && AtPlace(p, i, e) && e.bucket == 0
    ensures FirewallIndex(p, ctx, Fields(e.line), e.line) == Ok(i) <==> Alone(p, ctx, e)
  {
    hide JumpScan, Fields;
    ChainNames(p);
    var f := Fields(e.line);
    JumpScanExactly(p, f, 2, ChainIndex(p, f));
    assert forall k :: PrefixedJump(p, f, k) ==> 2 <= k;
    assert p.prefix[0] == "ATP_"[0] && PreChain(p)[0] == 'A' && OutChain(p)[0] == 'A';
    assert !HasPrefix("PREROUTING", p.prefix) && !HasPrefix("OUTPUT", p.prefix);
    if JumpScan(p, f, 2, ChainIndex(p, f)).Ok? {
      JumpRow(p, f, 2, ChainIndex(p, f));
      if i in {4, 7} {
        var target := if i == 4 then PreChain(p) else OutChain(p);
        var k :| 2 <= k < |f| - 1 && f[k] == "-j" && f[k + 1] == target;
        assert PrefixedJump(p, f, k);
      }
    }
  }

  /** The row of an accepted entry jump is the one of its built-in chain. */
  lemma {:induction false} JumpRow(p: DestinationPlan, f: seq<string>, i: nat, index: int)
    requires ValidPlan(p) && |f| >= 2 && i >= 2 && JumpScan(p, f, i, index).Ok?
    ensures JumpScan(p, f, i, index).value == index
      || (f[1] == "PREROUTING" && JumpScan(p, f, i, index).value == 4) || (f[1] == "OUTPUT" && JumpScan(p, f, i, index).value == 7)
    decreases |f| - i
  {
    ChainNames(p);
    if i + 1 < |f| {
      var next := if f[i] != "-j" && f[i] != "-g" then index
        else if f[i + 1] == PreChain(p) then 4 else if f[i + 1] == OutChain(p) then 7 else index;
      JumpRow(p, f, i + 1, next);
    }
  }

  lemma {:induction false} LastTableReserved(p: DestinationPlan, ctx: Context, f: seq<string>, i: nat, before: Option<string>)
    requires LastTable(f, i, before) == Some(FormatUint(p.table)) && before != Some(FormatUint(p.table))
    ensures InReservedTable(p, ctx, f)
    decreases |f| - i
  {
    hide FormatUint;
    if i + 1 < |f| {
      var next := if f[i] == "table" then Some(f[i + 1]) else before;
      if next == Some(FormatUint(p.table)) {
        assert NamesReserved(p, ctx, f[i + 1]);
      } else {
        LastTableReserved(p, ctx, f, i + 2, next);
      }
    }
  }
}
