/** The plan's eight commands, read with the tools' own meaning: each step makes one
    thing and its inverse takes exactly that thing away; the eight are different,
    are printed differently, and each finds what it needs among the earlier ones. */
module PlanMeaning {
  import opened Text
  import opened Plan
  import opened Observation
  import opened Resources
  import opened Tools
  import opened Exactness

  const RULE_STEPS: set<nat> := {3, 4, 6, 7}

  function StepBucket(i: nat): (b: nat)
    ensures b < 3
  {
    if i == 0 then 2 else if i == 1 then 1 else 0
  }

  /** The command line of a step, if there is one. */
  function CommandOf(p: DestinationPlan, intent: string, i: int): seq<string> {
    match Steps(p)
    case None => []
    case Some(steps) => if 0 <= i < |steps| then (if intent == "add" then steps[i].add else steps[i].remove) else []
  }

  /** The command line of the exact check: the removal with its option changed. */
  function CheckOf(p: DestinationPlan, i: int): seq<string> {
    CheckForm(CommandOf(p, "remove", i))
  }

  /** What step i is to make. */
  function StepThing(p: DestinationPlan, i: nat): (t: Thing)
    requires i < 8
  {
    var pre, out, table, mark := PreChain(p), OutChain(p), FormatUint(p.table), MarkText(p);
    match i
    case 0 => RouteThing(AddressText(p.address), "lo", table)
    case 1 => PolicyThing(FormatUint(p.priority), p.mark as nat, p.mask as nat, table)
    case 2 => ChainThing(pre)
    case 3 => RuleThing(pre, ["-p", "tcp", "-d", AddressText(p.address), "--dport", FormatUint(p.port), "-m", "mark", "--mark", mark,
                              "-j", "TPROXY", "--on-port", FormatUint(p.listenerPort), "--tproxy-mark", mark])
    case 4 => RuleThing("PREROUTING", ["-p", "tcp", "-j", pre])
    case 5 => ChainThing(out)
    case 6 => RuleThing(out, ["-p", "tcp", "-d", AddressText(p.address), "--dport", FormatUint(p.port),
                              "-j", "MARK", "--set-xmark", mark])
    case _ => RuleThing("OUTPUT", ["-p", "tcp", "-j", out])
  }

  // ---- the mark is the number it stands for ----

  function Pow16(n: nat): (r: nat)
    ensures r > 0
  {
    if n == 0 then 1 else 16 * Pow16(n - 1)
  }

  lemma {:induction false} HexRoundTrip(n: nat, width: nat)
    requires n < Pow16(width)
    ensures HexNumber(HexDigits(n, width)) == Some(n) && |HexDigits(n, width)| == width
    decreases width
  {
    if width > 0 {
      assert n / 16 < Pow16(width - 1);
      HexRoundTrip(n / 16, width - 1);
      var s := HexDigits(n, width);
      assert s[..|s| - 1] == HexDigits(n / 16, width - 1);
      HexDigitOf(n % 16);
      assert s[|s| - 1] == "0123456789abcdef"[n % 16];
    }
  }

  lemma HexDigitOf(d: nat)
    requires d < 16
    ensures HexDigit("0123456789abcdef"[d]) == Some(d)
  {
  }

  lemma MarkParts(a: string, b: string)
    requires |a| == 8 && |b| == 8 && HexNumber(a).Some? && HexNumber(b).Some?
    ensures MarkNumbers("0x" + a + "/0x" + b) == Some((HexNumber(a).value, HexNumber(b).value))
  {
    hide HexNumber;
    var s := "0x" + a + "/0x" + b;
    assert s[..2] == "0x" && s[2..10] == a && s[10..13] == "/0x" && s[13..21] == b;
  }

  lemma EightDigits()
    ensures Pow16(8) == 0x1_0000_0000
  {
    assert Pow16(4) == 0x1_0000;
  }

  lemma WordBound(x: bv32)
    ensures x as nat < 0x1_0000_0000
  {
  }

  lemma MarkRoundTrip(p: DestinationPlan)
    ensures MarkNumbers(MarkText(p)) == Some((p.mark as nat, p.mask as nat))
  {
    hide HexDigits, HexNumber, MarkNumbers, Pow16;
    EightDigits();
    WordBound(p.mark);
    WordBound(p.mask);
    HexRoundTrip(p.mark as nat, 8);
    HexRoundTrip(p.mask as nat, 8);
    MarkParts(HexDigits(p.mark as nat, 8), HexDigits(p.mask as nat, 8));
  }

  // ---- what the commands mean ----

  lemma FirewallCommand(a: seq<string>)
    requires |a| > 0
    ensures Meaning(Mangle(a)) == FirewallMeaning(a)
  {
    var args := Mangle(a);
    assert args[..5] == MANGLE && args[5..] == a;
  }

  lemma RouteCommand(p: DestinationPlan, verb: string)
    requires verb == "add" || verb == "del"
    requires ValidPlan(p)
    ensures var t := StepThing(p, 0);
      Meaning(["ip", "route", verb, "local", AddressText(p.address) + "/32", "dev", "lo", "table", FormatUint(p.table)])
        == Some(if verb == "add" then Make(t) else Take(t))
  {
    hide AddressText, FormatUint;
    var a := AddressText(p.address);
    assert |a| > 0 by { AddressNotEmpty(p); }
    var args := ["ip", "route", verb, "local", a + "/32", "dev", "lo", "table", FormatUint(p.table)];
    assert args[3..] == ["local", a + "/32", "dev", "lo", "table", FormatUint(p.table)];
    assert (a + "/32")[|a|..] == "/32" && (a + "/32")[..|a|] == a;
    assert args[..5] != MANGLE by { assert args[0] != MANGLE[0]; }
  }

  lemma AddressNotEmpty(p: DestinationPlan)
    requires ValidPlan(p)
    ensures AddressText(p.address) != ""
  {
  }

  lemma PolicyCommand(p: DestinationPlan, verb: string)
    requires verb == "add" || verb == "del"
    ensures var t := StepThing(p, 1);
      Meaning(["ip", "rule", verb, "priority", FormatUint(p.priority), "fwmark", MarkText(p), "lookup", FormatUint(p.table)])
        == Some(if verb == "add" then Make(t) else Take(t))
  {
    hide MarkText, FormatUint, MarkNumbers;
    MarkRoundTrip(p);
    var args := ["ip", "rule", verb, "priority", FormatUint(p.priority), "fwmark", MarkText(p), "lookup", FormatUint(p.table)];
    assert args[3..] == ["priority", FormatUint(p.priority), "fwmark", MarkText(p), "lookup", FormatUint(p.table)];
    assert args[..5] != MANGLE by { assert args[0] != MANGLE[0]; }
  }

  lemma RuleCommand(chain: string, spec: seq<string>)
    ensures Meaning(Mangle(["-A", chain] + spec)) == Some(Make(RuleThing(chain, spec)))
    ensures Meaning(Mangle(["-I", chain, "1"] + spec)) == Some(Make(RuleThing(chain, spec)))
    ensures Meaning(Mangle(["-D", chain] + spec)) == Some(Take(RuleThing(chain, spec)))
    ensures Meaning(CheckForm(Mangle(["-D", chain] + spec))) == Some(Ask(RuleThing(chain, spec)))
  {
    hide Meaning, CheckForm, Mangle;
    OneRuleCommand("-A", chain, spec);
    OneRuleCommand("-D", chain, spec);
    OneRuleCommand("-C", chain, spec);
    InsertCommand(chain, spec);
    CheckOfDelete([chain] + spec);
    assert ["-D", chain] + spec == ["-D"] + ([chain] + spec) && ["-C", chain] + spec == ["-C"] + ([chain] + spec);
  }

  lemma OneRuleCommand(option: string, chain: string, spec: seq<string>)
    requires option in {"-A", "-D", "-C"}
    ensures var t := RuleThing(chain, spec);
      Meaning(Mangle([option, chain] + spec)) == Some(if option == "-A" then Make(t) else if option == "-D" then Take(t) else Ask(t))
  {
    hide Meaning;
    var a := [option, chain] + spec;
    FirewallCommand(a);
    assert a[2..] == spec && a[0] == option && a[1] == chain;
  }

  lemma InsertCommand(chain: string, spec: seq<string>)
    ensures Meaning(Mangle(["-I", chain, "1"] + spec)) == Some(Make(RuleThing(chain, spec)))
  {
    hide Meaning;
    var a := ["-I", chain, "1"] + spec;
    FirewallCommand(a);
    assert a[3..] == spec && a[0] == "-I" && a[1] == chain && a[2] == "1";
  }

  lemma CheckOfDelete(rest: seq<string>)
    ensures CheckForm(Mangle(["-D"] + rest)) == Mangle(["-C"] + rest)
  {
    var tail := ["-D"] + rest;
    assert CheckForm(tail) == ["-C"] + rest by { assert tail[1..] == rest; }
    Skips(MANGLE, tail);
  }

  lemma {:induction false} Skips(first: seq<string>, rest: seq<string>)
    requires "-D" !in first
    ensures CheckForm(first + rest) == first + CheckForm(rest)
  {
    if first == [] {
      assert first + rest == rest;
    } else {
      Skips(first[1..], rest);
      SkipsOne(first[0], first[1..] + rest);
      assert first + rest == [first[0]] + (first[1..] + rest);
      assert first + CheckForm(rest) == [first[0]] + (first[1..] + CheckForm(rest));
    }
  }

  lemma SkipsOne(first: string, rest: seq<string>)
    requires first != "-D"
    ensures CheckForm([first] + rest) == [first] + CheckForm(rest)
  {
    assert ([first] + rest)[1..] == rest;
  }

  /** For every valid plan: step i's command makes its thing, its inverse takes away
      that very thing, and the exact check of a rule asks for it. */
  lemma PlanMeans(p: DestinationPlan, i: nat)
    requires ValidPlan(p) && i < 8
    ensures Meaning(CommandOf(p, "add", i)) == Some(Make(StepThing(p, i)))
    ensures Meaning(CommandOf(p, "remove", i)) == Some(Take(StepThing(p, i)))
    ensures i in RULE_STEPS ==> Meaning(CheckOf(p, i)) == Some(Ask(StepThing(p, i)))
  {
    hide Meaning, Mangle, AddressText, FormatUint, MarkText, PreChain, OutChain, CheckForm;
    if i == 0 {
      RouteCommand(p, "add");
      RouteCommand(p, "del");
    } else if i == 1 {
      PolicyCommand(p, "add");
      PolicyCommand(p, "del");
    } else if i in {2, 5} {
      var chain := if i == 2 then PreChain(p) else OutChain(p);
      FirewallCommand(["-N", chain]);
      FirewallCommand(["-X", chain]);
    } else {
      RuleStep(p, i);
    }
  }

  lemma RuleStep(p: DestinationPlan, i: nat)
    requires ValidPlan(p) && i in RULE_STEPS
    ensures var t := StepThing(p, i);
      && Meaning(CommandOf(p, "add", i)) == Some(Make(t)) && Meaning(CommandOf(p, "remove", i)) == Some(Take(t))
      && Meaning(CheckOf(p, i)) == Some(Ask(t))
  {
    hide Meaning, Mangle, AddressText, FormatUint, MarkText, PreChain, OutChain, CheckForm;
    var t := StepThing(p, i);
    RuleCommand(t.chain, t.spec);
    if i == 4 {
      assert ["-I", t.chain, "1"] + t.spec == ["-I", "PREROUTING", "1", "-p", "tcp", "-j", PreChain(p)];
      assert ["-D", t.chain] + t.spec == ["-D", "PREROUTING", "-p", "tcp", "-j", PreChain(p)];
    } else if i == 7 {
      assert ["-I", t.chain, "1"] + t.spec == ["-I", "OUTPUT", "1", "-p", "tcp", "-j", OutChain(p)];
      assert ["-D", t.chain] + t.spec == ["-D", "OUTPUT", "-p", "tcp", "-j", OutChain(p)];
    }
  }

  // ---- the things are eight, and stand where they are looked for ----

  lemma ThingsDiffer(p: DestinationPlan, i: nat, j: nat)
    requires ValidPlan(p) && i < 8 && j < 8 && StepThing(p, i) == StepThing(p, j)
    ensures i == j
  {
    hide AddressText, FormatUint, MarkText;
    ChainNames(p);
  }

  lemma ThingBucket(p: DestinationPlan, i: nat)
    requires i < 8
    ensures BucketOf(StepThing(p, i)) == StepBucket(i)
  {
  }

  /** A line that displays a step's thing stands at that step's place, so that the
      lines of different steps are different. */
  lemma DisplayedAtPlace(p: DestinationPlan, marks: (string, string) -> seq<MarkUse>, i: nat, e: Entry)
    requires ValidPlan(p) && i < 8 && Displays(marks, StepThing(p, i), e)
    ensures AtPlace(p, i, e) && Claim(p, e) == i && e.bucket == StepBucket(i)
  {
    hide AddressText, FormatUint, MarkText, Fields, LastTable, Claim, PreChain, OutChain, Jumps;
    var t := StepThing(p, i);
    if i in {4, 7} {
      assert t.spec[2] == "-j" && 2 < |t.spec| - 1;
      assert Jumps(Fields(e.line), "-j", t.spec[3]);
      assert AtPlace(p, i, e);
    }
    ClaimIsPlace(p, e, i);
  }

  // ---- nothing is made before what it needs ----

  const BUILT_IN: set<string> := {"PREROUTING", "OUTPUT", "TPROXY", "MARK"}

  /** The chains a rule stands in and jumps to, as far as they are not built in. */
  predicate Needs(t: Thing, name: string) {
    t.RuleThing? && name !in BUILT_IN
    && (name == t.chain || exists k :: 0 <= k < |t.spec| - 1 && t.spec[k] == "-j" && t.spec[k + 1] == name)
  }

  /** Every chain a rule needs is made by an earlier step; so every prefix of the plan
      is complete in itself, and removals from the end never orphan anything. */
  lemma NeedsEarlier(p: DestinationPlan, i: nat, name: string)
    requires ValidPlan(p) && i < 8 && Needs(StepThing(p, i), name)
    ensures exists j :: 0 <= j < i && StepThing(p, j) == ChainThing(name)
  {
    hide AddressText, FormatUint, MarkText, PreChain, OutChain;
    var t := StepThing(p, i);
    assert StepThing(p, 2) == ChainThing(PreChain(p)) && StepThing(p, 5) == ChainThing(OutChain(p));
    if name != t.chain {
      var k :| 0 <= k < |t.spec| - 1 && t.spec[k] == "-j" && t.spec[k + 1] == name;
      OneJump(p, i, k);
    }
  }

  lemma OneJump(p: DestinationPlan, i: nat, k: nat)
    requires ValidPlan(p) && i in RULE_STEPS
    requires var t := StepThing(p, i); k < |t.spec| - 1 && t.spec[k] == "-j"
    ensures var t := StepThing(p, i);
      t.spec[k + 1] == (if i == 3 then "TPROXY" else if i == 4 then PreChain(p) else if i == 6 then "MARK" else OutChain(p))
  {
    hide AddressText, MarkText, FormatUint;
    DottedNotOption(p);
    DigitsNotOption(p.port);
    DigitsNotOption(p.listenerPort);
    MarkNotOption(p);
  }

  lemma DottedNotOption(p: DestinationPlan)
    requires ValidPlan(p)
    ensures AddressText(p.address) != "-j"
  {
    var a := AddressText(p.address);
    DigitsNotOption(p.address.a);
    assert a[0] == FormatUint(p.address.a)[0];
    assert IsDigit(a[0]);
  }

  lemma DigitsNotOption(n: nat)
    ensures FormatUint(n) != "-j"
  {
    assert IsDigit(FormatUint(n)[0]);
  }

  lemma MarkNotOption(p: DestinationPlan)
    ensures MarkText(p) != "-j"
  {
    assert MarkText(p)[0] == "0x"[0];
  }
}
