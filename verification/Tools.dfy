/** What the command lines mean to `iptables` and `ip`: each names a thing and makes
    it, takes it away or asks for it; and how the tools print the things they
    hold. Nothing here knows of a plan. */
module Tools {
  import opened Text
  import opened Observation

  /** A chain or rule of the mangle table, a route to the local host, a policy rule. */
  datatype Thing =
    | ChainThing(name: string)
    | RuleThing(chain: string, spec: seq<string>)
    | RouteThing(address: string, device: string, table: string)
    | PolicyThing(priority: string, value: nat, mask: nat, table: string)

  datatype Request = Make(thing: Thing) | Take(thing: Thing) | Ask(thing: Thing)

  // ---- reading the arguments ----

  function HexDigit(c: char): Option<nat> {
    if '0' <= c <= '9' then Some(c as nat - '0' as nat)
    else if 'a' <= c <= 'f' then Some(c as nat - 'a' as nat + 10)
    else None
  }

  function HexNumber(s: string): Option<nat> {
    if s == "" then Some(0)
    else
      var high, low := HexNumber(s[..|s| - 1]), HexDigit(s[|s| - 1]);
      if high.None? || low.None? then None else Some(16 * high.value + low.value)
  }

  /** "0x" and eight digits, a slash, and the same again. */
  function MarkNumbers(s: string): Option<(nat, nat)> {
    if |s| != 21 || s[..2] != "0x" || s[10..13] != "/0x" then None
    else
      var value, mask := HexNumber(s[2..10]), HexNumber(s[13..21]);
      if value.None? || mask.None? then None else Some((value.value, mask.value))
  }

  const MANGLE: seq<string> := ["iptables", "-w", "2", "-t", "mangle"]

  function FirewallMeaning(a: seq<string>): Option<Request> {
    if |a| < 2 then None
    else if a[0] == "-N" && |a| == 2 then Some(Make(ChainThing(a[1])))
    else if a[0] == "-X" && |a| == 2 then Some(Take(ChainThing(a[1])))
    else if a[0] == "-A" then Some(Make(RuleThing(a[1], a[2..])))
    else if a[0] == "-I" && |a| > 2 && a[2] == "1" then Some(Make(RuleThing(a[1], a[3..])))
    else if a[0] == "-D" then Some(Take(RuleThing(a[1], a[2..])))
    else if a[0] == "-C" then Some(Ask(RuleThing(a[1], a[2..])))
    else None
  }

  function RouteMeaning(a: seq<string>): Option<Thing> {
    if |a| == 6 && a[0] == "local" && |a[1]| > 3 && a[1][|a[1]| - 3..] == "/32" && a[2] == "dev" && a[4] == "table"
    then Some(RouteThing(a[1][..|a[1]| - 3], a[3], a[5])) else None
  }

  function PolicyMeaning(a: seq<string>): Option<Thing> {
    if |a| == 6 && a[0] == "priority" && a[2] == "fwmark" && a[4] == "lookup" && MarkNumbers(a[3]).Some?
    then Some(PolicyThing(a[1], MarkNumbers(a[3]).value.0, MarkNumbers(a[3]).value.1, a[5])) else None
  }

  /** The change a command line asks for. */
  function Meaning(args: seq<string>): Option<Request> {
    if |args| > 5 && args[..5] == MANGLE then FirewallMeaning(args[5..])
    else if |args| < 3 || args[0] != "ip" then None
    else
      var thing := if args[1] == "route" then RouteMeaning(args[3..]) else if args[1] == "rule" then PolicyMeaning(args[3..]) else None;
      if thing.None? then None
      else if args[2] == "add" then Some(Make(thing.value))
      else if args[2] == "del" then Some(Take(thing.value))
      else None
  }

  // ---- the things as the tools print them ----

  function BucketOf(t: Thing): (b: nat)
    ensures b < 3
  {
    match t case RouteThing(_, _, _) => 2 case PolicyThing(_, _, _, _) => 1 case _ => 0
  }

  /** The value of the last `table` option from position i on, or what was found before. */
  function LastTable(f: seq<string>, i: nat, before: Option<string>): Option<string>
    decreases |f| - i
  {
    if i + 1 >= |f| then before else LastTable(f, i + 2, if f[i] == "table" then Some(f[i + 1]) else before)
  }

  predicate Jumps(f: seq<string>, option: string, target: string) {
    exists k :: 2 <= k < |f| - 1 && f[k] == option && f[k + 1] == target
  }

  /** The line is how the thing is printed: a rule with its chain and its jump, a
      policy with its words and the mark read from it. */
  predicate Displays(marks: (string, string) -> seq<MarkUse>, t: Thing, e: Entry) {
    var f := Fields(e.line);
    e.bucket == BucketOf(t) &&
    match t
    case ChainThing(name) => f == ["-N", name]
    case RuleThing(chain, spec) =>
      && |f| >= 2 && f[0] == "-A" && f[1] == chain
      && forall k :: 0 <= k < |spec| - 1 && spec[k] == "-j" ==> Jumps(f, "-j", spec[k + 1])
    case RouteThing(address, device, table) =>
      && |f| >= 4 && f[0] == "local" && (f[1] == address || f[1] == address + "/32") && f[2] == "dev" && f[3] == device
      && LastTable(f, 4, None) == Some(table)
    case PolicyThing(priority, value, mask, table) =>
      && |f| == 7 && f[0] == priority + ":" && f[1] == "from" && f[2] == "all" && f[3] == "fwmark"
      && f[5] == "lookup" && f[6] == table
      && var uses := marks("rule", e.line); |uses| == 1 && uses[0].value as nat == value && uses[0].mask as nat == mask
  }

  // ---- running a command ----

  predicate Shown(marks: (string, string) -> seq<MarkUse>, lines: seq<string>, t: Thing) {
    exists k :: 0 <= k < |lines| && Displays(marks, t, Entry(BucketOf(t), lines[k]))
  }

  /** The lines without the first one that displays the thing. */
  function TakeOne(marks: (string, string) -> seq<MarkUse>, lines: seq<string>, t: Thing): seq<string> {
    if lines == [] then []
    else if Displays(marks, t, Entry(BucketOf(t), lines[0])) then lines[1..]
    else [lines[0]] + TakeOne(marks, lines[1..], t)
  }

  lemma {:induction false} TakesFirst(marks: (string, string) -> seq<MarkUse>, lines: seq<string>, t: Thing) returns (k: nat)
    requires Shown(marks, lines, t)
    ensures k < |lines| && Displays(marks, t, Entry(BucketOf(t), lines[k]))
    ensures TakeOne(marks, lines, t) == lines[..k] + lines[k + 1..]
    decreases |lines|
  {
    hide Displays;
    if Displays(marks, t, Entry(BucketOf(t), lines[0])) {
      k := 0;
    } else {
      var j :| 0 <= j < |lines| && Displays(marks, t, Entry(BucketOf(t), lines[j]));
      assert lines[1..][j - 1] == lines[j];
      k := TakesFirst(marks, lines[1..], t);
      k := k + 1;
    }
  }
}
