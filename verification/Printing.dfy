/** The lines the tools print for the plan's own resources. Both classifiers
    recognise each of them as its step, so what an add command leaves in the
    kernel is accounted for by the next observation. */
module Printing {
  import opened Text
  import opened Plan
  import opened Observation
  import opened Resources
  import opened Scoped
  import opened KernelState
  import opened Tools
  import opened Exactness
  import opened PlanMeaning

  predicate Word(s: string) {
    s != "" && forall k :: 0 <= k < |s| ==> !IsSpace(s[k])
  }

  predicate Words(f: seq<string>) {
    forall k :: 0 <= k < |f| ==> Word(f[k])
  }

  lemma {:induction false} WordLengthOf(word: string, rest: string)
    requires forall k :: 0 <= k < |word| ==> !IsSpace(word[k])
    requires rest == "" || IsSpace(rest[0])
    ensures WordLength(word + rest) == |word|
    decreases |word|
  {
    if word == "" {
      assert word + rest == rest;
    } else {
      assert (word + rest)[1..] == word[1..] + rest;
      WordLengthOf(word[1..], rest);
    }
  }

  lemma FieldsOfWord(word: string, rest: string)
    requires Word(word) && (rest == "" || rest[0] == ' ')
    ensures Fields(word + rest) == [word] + Fields(rest)
  {
    var line := word + rest;
    WordLengthOf(word, rest);
    assert line[0] == word[0] && LeadingSpaces(line) == 0;
    assert line[0..] == line && line[..|word|] == word && line[|word|..] == rest;
  }

  lemma FieldsOfSpace(rest: string)
    ensures Fields(" " + rest) == Fields(rest)
  {
    var line := " " + rest;
    assert line[1..] == rest;
    assert LeadingSpaces(line) == 1 + LeadingSpaces(rest);
    assert line[LeadingSpaces(line)..] == rest[LeadingSpaces(rest)..];
  }

  lemma WordsAfter(f: seq<string>)
    requires Words(f) && f != []
    ensures Word(f[0]) && Words(f[1..])
  {
    assert forall k :: 0 <= k < |f[1..]| ==> f[1..][k] == f[k + 1];
  }

  lemma {:induction false} JoinIsLine(f: seq<string>)
    requires Words(f)
    ensures '\n' !in JoinFields(f) && (f != [] ==> JoinFields(f) != "")
    decreases |f|
  {
    if f != [] {
      hide Words;
      WordsAfter(f);
      assert IsSpace('\n');
      if |f| > 1 { JoinIsLine(f[1..]); }
    }
  }

  /** Splitting a line printed from words gives the words back. */
  lemma {:induction false} FieldsOfJoin(f: seq<string>)
    requires Words(f)
    ensures Fields(JoinFields(f)) == f
    decreases |f|
  {
    hide Words, Word, Fields;
    if |f| == 0 {
      NoFields();
    } else {
      WordsAfter(f);
      if |f| == 1 {
        assert f[0] + "" == f[0];
        FieldsOfWord(f[0], "");
        NoFields();
      } else {
        FieldsOfJoin(f[1..]);
        var rest := JoinFields(f[1..]);
        FieldsOfSpace(rest);
        FieldsOfWord(f[0], " " + rest);
        assert f[0] + (" " + rest) == f[0] + " " + rest;
      }
    }
  }

  lemma NoFields()
    ensures Fields("") == []
  {
  }

  // ---- the words of the printed lines ----

  lemma DigitsAreWord(n: nat)
    ensures Word(FormatUint(n)) && Word(FormatUint(n) + ":")
  {
    var s := FormatUint(n);
    assert forall k :: 0 <= k < |s| ==> IsDigit(s[k]);
    assert forall c :: IsDigit(c) ==> !IsSpace(c);
  }

  lemma JoinedWord(a: string, b: string)
    requires Word(a) && Word(b)
    ensures Word(a + b)
  {
  }

  lemma AddressIsWord(p: DestinationPlan)
    requires ValidAddress(p.address)
    ensures Word(AddressText(p.address)) && Word(AddressText(p.address) + "/32")
  {
    match p.address {
      case V4(a, b, c, d) =>
        DigitsAreWord(a);
        DigitsAreWord(b);
        DigitsAreWord(c);
        DigitsAreWord(d);
        JoinedWord(FormatUint(a), ".");
        JoinedWord(FormatUint(a) + ".", FormatUint(b));
        JoinedWord(FormatUint(a) + "." + FormatUint(b), ".");
        JoinedWord(FormatUint(a) + "." + FormatUint(b) + ".", FormatUint(c));
        JoinedWord(FormatUint(a) + "." + FormatUint(b) + "." + FormatUint(c), ".");
        JoinedWord(FormatUint(a) + "." + FormatUint(b) + "." + FormatUint(c) + ".", FormatUint(d));
    }
    JoinedWord(AddressText(p.address), "/32");
  }

  lemma ChainsAreWords(p: DestinationPlan)
    requires ValidPrefix(p.prefix)
    ensures Word(PreChain(p)) && Word(OutChain(p))
  {
    assert Word(p.prefix) by {
      assert forall c :: PrefixCharacter(c) ==> !IsSpace(c);
      assert forall k :: 0 <= k < 4 ==> p.prefix[k] == "ATP_"[k];
    }
    JoinedWord(p.prefix, "_PRE");
    JoinedWord(p.prefix, "_OUT");
  }

  lemma {:induction false} HexIsWord(n: nat, width: nat)
    ensures forall k :: 0 <= k < |HexDigits(n, width)| ==> !IsSpace(HexDigits(n, width)[k])
    ensures |HexDigits(n, width)| == width
    decreases width
  {
    if width > 0 {
      HexIsWord(n / 16, width - 1);
      assert forall i :: 0 <= i < 16 ==> !IsSpace("0123456789abcdef"[i]);
    }
  }

  lemma MarkIsWord(p: DestinationPlan)
    ensures Word(MarkText(p))
  {
    HexIsWord(p.mark as nat, 8);
    HexIsWord(p.mask as nat, 8);
    JoinedWord("0x", HexDigits(p.mark as nat, 8));
    JoinedWord("0x" + HexDigits(p.mark as nat, 8), "/0x");
    JoinedWord("0x" + HexDigits(p.mark as nat, 8) + "/0x", HexDigits(p.mask as nat, 8));
  }

  /** The words `ip` and `iptables -S` print for each step. */
  function StepWords(p: DestinationPlan, i: nat): seq<string>
    requires i < 8
  {
    var ip, port, table, mark := AddressText(p.address), FormatUint(p.port), FormatUint(p.table), MarkText(p);
    var pre, out := PreChain(p), OutChain(p);
    match i
    case 0 => ["local", ip, "dev", "lo", "table", table, "scope", "host"]
    case 1 => [FormatUint(p.priority) + ":", "from", "all", "fwmark", mark, "lookup", table]
    case 2 => ["-N", pre]
    case 3 => ["-A", pre, "-d", ip + "/32", "-p", "tcp", "-m", "tcp", "--dport", port, "-m", "mark", "--mark", mark,
               "-j", "TPROXY", "--on-port", FormatUint(p.listenerPort), "--tproxy-mark", mark]
    case 4 => ["-A", "PREROUTING", "-p", "tcp", "-j", pre]
    case 5 => ["-N", out]
    case 6 => ["-A", out, "-d", ip + "/32", "-p", "tcp", "-m", "tcp", "--dport", port, "-j", "MARK", "--set-xmark", mark]
    case _ => ["-A", "OUTPUT", "-p", "tcp", "-j", out]
  }

  function StepLine(p: DestinationPlan, i: nat): string
    requires i < 8
  {
    JoinFields(StepWords(p, i))
  }

  lemma StepFields(p: DestinationPlan, i: nat)
    requires ValidPlan(p) && i < 8
    ensures Fields(StepLine(p, i)) == StepWords(p, i) && PrintedLines([StepLine(p, i)])
  {
    hide Fields, JoinFields, StepWords, Words;
    StepWordsAreWords(p, i);
    JoinIsLine(StepWords(p, i));
    FieldsOfJoin(StepWords(p, i));
  }

  lemma Literals()
    ensures Word("local") && Word("dev") && Word("lo") && Word("table") && Word("scope") && Word("host")
    ensures Word("from") && Word("all") && Word("fwmark") && Word("lookup")
    ensures Word("-N") && Word("-A") && Word("-d") && Word("-p") && Word("tcp") && Word("-m") && Word("--dport")
    ensures Word("mark") && Word("--mark") && Word("-j") && Word("TPROXY") && Word("--on-port") && Word("--tproxy-mark")
    ensures Word("MARK") && Word("--set-xmark") && Word("PREROUTING") && Word("OUTPUT")
  {
  }

  lemma StepWordsAreWords(p: DestinationPlan, i: nat)
    requires ValidPlan(p) && i < 8
    ensures Words(StepWords(p, i)) && StepWords(p, i) != []
  {
    hide Word, AddressText, MarkText, PreChain, OutChain, ValidPrefix, ValidAddress;
    Literals();
    AddressIsWord(p);
    ChainsAreWords(p);
    MarkIsWord(p);
    DigitsAreWord(p.port);
    DigitsAreWord(p.table);
    DigitsAreWord(p.listenerPort);
    DigitsAreWord(p.priority);
  }

  lemma RuleRecognised(p: DestinationPlan, ctx: Context, i: nat)
    requires ValidPlan(p) && i in {3, 6} && ctx.exact == RULE_STEPS
    ensures var e := Entry(0, StepLine(p, i)); Judge(p, ctx, e) == Planned(i) && RowIndex(p, ctx, 1, e) == Ok(i)
  {
    hide AddressText, MarkText, Fields, JoinFields;
    StepFields(p, i);
    ChainNames(p);
    var f := StepWords(p, i);
    var e := Entry(0, StepLine(p, i));
    assert Claim(p, e) == i;
    assert !HasPrefix("TPROXY", p.prefix) && !HasPrefix("MARK", p.prefix) by { assert p.prefix[0] == "ATP_"[0]; }
    OnlyOneJump(p, i);
    NoJumps(p, f, 2, i);
  }

  lemma OnlyOneJump(p: DestinationPlan, i: nat)
    requires ValidPlan(p) && i in {3, 6}
    ensures var f := StepWords(p, i);
      forall k :: 2 <= k < |f| - 1 && (f[k] == "-j" || f[k] == "-g") ==> f[k + 1] == "TPROXY" || f[k + 1] == "MARK"
  {
    hide AddressText, MarkText;
    assert IsDigit(FormatUint(p.port)[0]) && IsDigit(FormatUint(p.listenerPort)[0]);
    assert |AddressText(p.address) + "/32"| >= 3;
    assert MarkText(p)[0] != '-' by { MarkStarts(p); }
    assert FormatUint(p.port)[0] != '-' && FormatUint(p.listenerPort)[0] != '-';
  }

  /** The rules in our own chains jump only to targets of the kernel's. */
  lemma {:induction false} NoJumps(p: DestinationPlan, f: seq<string>, n: nat, index: int)
    requires |f| >= 2 && ValidPrefix(p.prefix)
    requires forall k :: n <= k < |f| - 1 && (f[k] == "-j" || f[k] == "-g") ==> f[k + 1] == "TPROXY" || f[k + 1] == "MARK"
    ensures JumpScan(p, f, n, index) == Ok(index)
    decreases |f| - n
  {
    if n + 1 < |f| {
      assert PreChain(p)[0] == 'A' && OutChain(p)[0] == 'A' && p.prefix[0] == "ATP_"[0];
      NoJumps(p, f, n + 1, index);
    }
  }

  lemma JumpRecognised(p: DestinationPlan, ctx: Context, i: nat)
    requires ValidPlan(p) && i in {4, 7} && ctx.exact == RULE_STEPS
    ensures var e := Entry(0, StepLine(p, i)); Judge(p, ctx, e) == Planned(i) && RowIndex(p, ctx, 1, e) == Ok(i)
  {
    hide Fields, JoinFields;
    StepFields(p, i);
    ChainNames(p);
    var f := StepWords(p, i);
    assert f[4] == "-j" && JumpsTo(f, f[5]);
    assert !HasPrefix("PREROUTING", p.prefix) && !HasPrefix("OUTPUT", p.prefix) by { assert p.prefix[0] == "ATP_"[0]; }
    assert JumpScan(p, f, 4, -1) == Ok(i) by {
      assert JumpScan(p, f, 5, i) == Ok(i);
    }
    assert JumpScan(p, f, 3, -1) == Ok(i);
    assert JumpScan(p, f, 2, -1) == Ok(i);
  }

  lemma ChainRecognised(p: DestinationPlan, ctx: Context, i: nat)
    requires ValidPlan(p) && i in {2, 5}
    ensures var e := Entry(0, StepLine(p, i)); Judge(p, ctx, e) == Planned(i) && RowIndex(p, ctx, 1, e) == Ok(i)
  {
    hide Fields, JoinFields;
    StepFields(p, i);
    ChainNames(p);
    var f := StepWords(p, i);
    assert JumpScan(p, f, 2, i) == Ok(i);
  }

  lemma PolicyLookups(p: DestinationPlan, ctx: Context, f: seq<string>)
    requires f == StepWords(p, 1) && ValidPlan(p)
    ensures LookupScan(p, ctx, f, 1, 1) == Ok(1)
  {
    hide MarkText, ParseUint32, FormatUint;
    ParseOfFormat(p.table);
    MarkStarts(p);
    assert TableId(ctx, f[6]) == Some(p.table);
    LookupScanExactly(p, ctx, f, 1, 1);
    forall k | 1 <= k && LookupAt(f, k) ensures TableId(ctx, f[k + 1]).Some? {
      assert k == 5;
    }
  }

  lemma PolicyRecognised(p: DestinationPlan, ctx: Context)
    requires ValidPlan(p)
    requires |ctx.marks("rule", StepLine(p, 1))| == 1
    requires ctx.marks("rule", StepLine(p, 1))[0].value == p.mark && ctx.marks("rule", StepLine(p, 1))[0].mask == p.mask
    ensures var e := Entry(1, StepLine(p, 1)); Judge(p, ctx, e) == Planned(1) && RowIndex(p, ctx, 1, e) == Ok(1)
  {
    hide Fields, JoinFields, MarkText, LookupScan, Judge, FormatUint, ParseUint32;
    StepFields(p, 1);
    ParseOfFormat(p.priority);
    var e := Entry(1, StepLine(p, 1));
    PolicyLookups(p, ctx, StepWords(p, 1));
    assert IsPlanned(p, ctx, 1, e);
    JudgeExactly(p, ctx, e);
  }

  lemma MarkStarts(p: DestinationPlan)
    ensures MarkText(p) != "" && MarkText(p)[0] == '0' && MarkText(p) != "lookup" && MarkText(p) != "table"
  {
    assert MarkText(p)[0] == "0x"[0];
  }

  lemma RouteRecognised(p: DestinationPlan, ctx: Context)
    requires ValidPlan(p)
    ensures var e := Entry(2, StepLine(p, 0)); Judge(p, ctx, e) == Planned(0) && RowIndex(p, ctx, 1, e) == Ok(0)
  {
    hide Fields, JoinFields, AddressText;
    StepFields(p, 0);
    var f := StepWords(p, 0);
    assert RouteOptions(p, f, 8, true, true) == (true, true);
    assert RouteOptions(p, f, 6, true, true) == (true, true);
    assert RouteOptions(p, f, 4, false, true) == (true, true);
    assert f[4] == "table" && NamesReserved(p, ctx, f[5]);
  }

  lemma RouteTable(f: seq<string>, table: string)
    requires |f| == 8 && f[4] == "table" && f[5] == table && f[6] != "table"
    ensures LastTable(f, 4, None) == Some(table)
  {
    assert LastTable(f, 8, Some(table)) == Some(table);
    assert LastTable(f, 6, Some(table)) == Some(table);
  }

  lemma RuleDisplayed(p: DestinationPlan, marks: (string, string) -> seq<MarkUse>, i: nat)
    requires ValidPlan(p) && i in RULE_STEPS
    ensures Displays(marks, StepThing(p, i), Entry(0, StepLine(p, i)))
  {
    hide Fields, JoinFields, AddressText, MarkText, FormatUint, PreChain, OutChain;
    StepFields(p, i);
    var f, t := StepWords(p, i), StepThing(p, i);
    var at := if i == 3 then 14 else if i == 6 then 10 else 4;
    var target := if i == 3 then "TPROXY" else if i == 4 then PreChain(p) else if i == 6 then "MARK" else OutChain(p);
    assert f[at] == "-j" && f[at + 1] == target && Jumps(f, "-j", target);
    forall k | 0 <= k < |t.spec| - 1 && t.spec[k] == "-j" ensures Jumps(f, "-j", t.spec[k + 1]) {
      OneJump(p, i, k);
    }
  }

  /** The printed line of a step displays exactly that step's thing. */
  lemma StepLineDisplays(site: Site, i: nat, j: nat)
    requires ValidPlan(site.plan) && i < 8 && j < 8
    requires |site.marks("rule", StepLine(site.plan, 1))| == 1
    requires var use := site.marks("rule", StepLine(site.plan, 1))[0]; use.value == site.plan.mark && use.mask == site.plan.mask
    ensures Displays(site.marks, StepThing(site.plan, j), Entry(StepBucket(i), StepLine(site.plan, i))) <==> i == j
  {
    hide Fields, JoinFields, AddressText, MarkText, FormatUint, PreChain, OutChain, AtPlace, Claim;
    var p, e := site.plan, Entry(StepBucket(i), StepLine(site.plan, i));
    StepFields(p, i);
    if i == 0 { RouteTable(StepWords(p, 0), FormatUint(p.table)); }
    if i in RULE_STEPS { RuleDisplayed(p, site.marks, i); }
    assert Displays(site.marks, StepThing(p, i), e);
    DisplayedAtPlace(p, site.marks, i, e);
    if Displays(site.marks, StepThing(p, j), e) { DisplayedAtPlace(p, site.marks, j, e); }
  }

  /** Every step of every valid plan can be printed in a form that both classifiers
      recognise as exactly that step, given that the mark recogniser reads the
      plan's mark in the plan's own rule. */
  lemma EveryStepRenders(site: Site, i: nat)
    requires ValidPlan(site.plan) && i < 8
    requires |site.marks("rule", StepLine(site.plan, 1))| == 1
    requires var use := site.marks("rule", StepLine(site.plan, 1))[0]; use.value == site.plan.mark && use.mask == site.plan.mask
    ensures Renders(site, i, StepLine(site.plan, i))
  {
    hide Judge, RowIndex, Fields, JoinFields;
    var ctx := Context(site.aliases, site.marks, RULE_STEPS);
    StepFields(site.plan, i);
    StepLineDisplays(site, i, i);
    if i == 0 { RouteRecognised(site.plan, ctx); }
    else if i == 1 { PolicyRecognised(site.plan, ctx); }
    else if i in {2, 5} { ChainRecognised(site.plan, ctx, i); }
    else if i in {3, 6} { RuleRecognised(site.plan, ctx, i); }
    else { JumpRecognised(site.plan, ctx, i); }
  }
}
