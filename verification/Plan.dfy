/** plan.go: the validated configuration and the ordered list of eight commands,
    each with the command that takes it back. */
module Plan {
  import opened Text

  type Octet = n: nat | n < 256

  datatype Address =
    | V4(a: Octet, b: Octet, c: Octet, d: Octet)
    | V6
    | NoAddress

  datatype DestinationPlan = DestinationPlan(
    address: Address,
    port: nat,
    listenerPort: nat,
    mark: bv32,
    mask: bv32,
    table: nat,
    priority: nat,
    prefix: string)

  datatype Step = Step(add: seq<string>, remove: seq<string>)

  const PLAN_LENGTH := 8

  predicate PrefixCharacter(c: char) {
    'A' <= c <= 'Z' || '0' <= c <= '9' || c == '_'
  }

  /** The pattern `^ATP_[A-Z0-9_]{1,16}$`. */
  predicate ValidPrefix(prefix: string) {
    && "ATP_" <= prefix
    && 5 <= |prefix| <= 20
    && forall k :: 4 <= k < |prefix| ==> PrefixCharacter(prefix[k])
  }

  predicate ValidAddress(address: Address) {
    match address
    case V4(a, b, c, d) =>
      && a != 127                                  // loopback
      && !(224 <= a < 240)                         // multicast
      && !(a == 0 && b == 0 && c == 0 && d == 0)   // unspecified
      && !(a == 169 && b == 254)                   // link local
      && !(a == 255 && b == 255 && c == 255 && d == 255)
    case _ => false
  }

  /** Every check `Steps` makes; the four numbers are also within Go's types. */
  predicate ValidPlan(p: DestinationPlan) {
    && ValidAddress(p.address)
    && 0 < p.port < 65536
    && 0 < p.listenerPort < 65536
    && p.mask != 0 && p.mask & (p.mask - 1) == 0 && p.mark == p.mask
    && 256 <= p.table < UINT32_LIMIT
    && 0 < p.priority < 32766
    && ValidPrefix(p.prefix)
  }

  function AddressText(address: Address): string {
    match address
    case V4(a, b, c, d) => FormatUint(a) + "." + FormatUint(b) + "." + FormatUint(c) + "." + FormatUint(d)
    case _ => ""
  }

  function HexDigits(n: nat, width: nat): string {
    if width == 0 then "" else HexDigits(n / 16, width - 1) + ["0123456789abcdef"[n % 16]]
  }

  function MarkText(p: DestinationPlan): string {
    "0x" + HexDigits(p.mark as nat, 8) + "/0x" + HexDigits(p.mask as nat, 8)
  }

  function PreChain(p: DestinationPlan): string {
    p.prefix + "_PRE"
  }

  function OutChain(p: DestinationPlan): string {
    p.prefix + "_OUT"
  }

  function Mangle(args: seq<string>): seq<string> {
    ["iptables", "-w", "2", "-t", "mangle"] + args
  }

  function Rule(chain: string, args: seq<string>): Step {
    Step(Mangle(["-A", chain] + args), Mangle(["-D", chain] + args))
  }

  /** The plan's steps in installation order; None is the validation error. */
  function Steps(p: DestinationPlan): (steps: Option<seq<Step>>)
    ensures steps.Some? <==> ValidPlan(p)
    ensures steps.Some? ==> |steps.value| == PLAN_LENGTH
  {
    if !ValidPlan(p) then None
    else
      var ip, port, table, mark := AddressText(p.address), FormatUint(p.port), FormatUint(p.table), MarkText(p);
      var pre, out := PreChain(p), OutChain(p);
      Some([
        Step(["ip", "route", "add", "local", ip + "/32", "dev", "lo", "table", table],
             ["ip", "route", "del", "local", ip + "/32", "dev", "lo", "table", table]),
        Step(["ip", "rule", "add", "priority", FormatUint(p.priority), "fwmark", mark, "lookup", table],
             ["ip", "rule", "del", "priority", FormatUint(p.priority), "fwmark", mark, "lookup", table]),
        Step(Mangle(["-N", pre]), Mangle(["-X", pre])),
        Rule(pre, ["-p", "tcp", "-d", ip, "--dport", port, "-m", "mark", "--mark", mark, "-j", "TPROXY",
                   "--on-port", FormatUint(p.listenerPort), "--tproxy-mark", mark]),
        Step(Mangle(["-I", "PREROUTING", "1", "-p", "tcp", "-j", pre]),
             Mangle(["-D", "PREROUTING", "-p", "tcp", "-j", pre])),
        Step(Mangle(["-N", out]), Mangle(["-X", out])),
        Rule(out, ["-p", "tcp", "-d", ip, "--dport", port, "-j", "MARK", "--set-xmark", mark]),
        Step(Mangle(["-I", "OUTPUT", "1", "-p", "tcp", "-j", out]),
             Mangle(["-D", "OUTPUT", "-p", "tcp", "-j", out]))
      ])
  }

  /** The removal turned into an existence check: the first `-D` becomes `-C`. */
  function CheckForm(args: seq<string>): seq<string> {
    if args == [] then []
    else if args[0] == "-D" then ["-C"] + args[1..]
    else [args[0]] + CheckForm(args[1..])
  }

  /** The chain names are different from each other and from the built-in chains. */
  lemma ChainNames(p: DestinationPlan)
    requires ValidPrefix(p.prefix)
    ensures PreChain(p) != OutChain(p)
    ensures PreChain(p) !in {"PREROUTING", "OUTPUT"} && OutChain(p) !in {"PREROUTING", "OUTPUT"}
    ensures HasPrefix(PreChain(p), p.prefix) && HasPrefix(OutChain(p), p.prefix)
  {
    var n := |p.prefix|;
    assert PreChain(p)[n + 1] == 'P' && OutChain(p)[n + 1] == 'O';
    assert PreChain(p)[0] == 'A' && OutChain(p)[0] == 'A';
  }
}
