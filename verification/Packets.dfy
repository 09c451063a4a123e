/** What the rules of cmd/tun2proxy-web/routes.go do to a packet: the chains are
    read first match first, the policies send an owner's IPv4 packets to the
    module's table, and a throw route there sends them on as if there were none. */
module Packets {
  import opened Text
  import opened Routes
  import opened RouteRuns

  datatype Packet = Packet(v6: bool, udp: bool, port: nat, dest: nat, uid: nat)

  datatype Fate = Rejected | Tunnelled | Direct

  /** What user ranges and networks contain, and the IPv6 loopback address. */
  datatype Sense = Sense(inRange: (string, nat) -> bool, inNet: (string, nat) -> bool, loopback: nat)

  /** Whether the first rule that matches rejects the packet. */
  predicate Rejects(m: Sense, rules: seq<Rule>, p: Packet) {
    rules != [] &&
    match rules[0]
    case RejectUdp => (p.udp && p.port != 53) || Rejects(m, rules[1..], p)
    case RejectAll => true
    case ReturnLoopback => p.dest != m.loopback && Rejects(m, rules[1..], p)
    case Bypass(cidr) => !m.inNet(cidr, p.dest) && Rejects(m, rules[1..], p)
  }

  predicate Enters(m: Sense, n: Net, tool: Tool, p: Packet) {
    tool in n.chains && exists j :: j in n.jumps && j.0 == tool && m.inRange(j.1, p.uid)
  }

  predicate Thrown(m: Sense, n: Net, p: Packet) {
    exists d :: d in n.routes && d.Throw? && m.inNet(d.cidr, p.dest)
  }

  function FateOf(m: Sense, n: Net, p: Packet): Fate {
    var tool := if p.v6 then Ip6tables else Iptables;
    if Enters(m, n, tool, p) && Rejects(m, n.chains[tool], p) then Fate.Rejected
    else if !p.v6 && (exists r :: r in n.policies && m.inRange(r, p.uid)) && !Thrown(m, n, p) && Default in n.routes
    then Tunnelled
    else Direct
  }

  /** The user was asked to be captured; the destination was asked to be left alone. */
  predicate Chosen(m: Sense, ranges: seq<string>, p: Packet) {
    exists r :: r in ranges && m.inRange(r, p.uid)
  }

  predicate Exempt(m: Sense, cidrs: seq<Option<string>>, p: Packet) {
    exists c :: c in cidrs && c.Some? && m.inNet(c.value, p.dest)
  }

  /** What the configuration promises. */
  function Promised(m: Sense, cidrs: seq<Option<string>>, ranges: seq<string>, p: Packet): Fate {
    if !Chosen(m, ranges, p) then Direct
    else if p.v6 then (if p.dest == m.loopback then Direct else Fate.Rejected)
    else if Exempt(m, cidrs, p) then Direct
    else if p.udp && p.port != 53 then Fate.Rejected
    else Tunnelled
  }

  lemma {:induction false} BypassesFirst(m: Sense, nets: seq<string>, rest: seq<Rule>, p: Packet)
    ensures Rejects(m, Reversed(nets) + rest, p) <==>
      !(exists c :: c in nets && m.inNet(c, p.dest)) && Rejects(m, rest, p)
  {
    if nets == [] {
      assert [] + rest == rest;
    } else {
      var first := [Bypass(nets[0])] + rest;
      assert first[1..] == rest;
      assert Reversed(nets) + rest == Reversed(nets[1..]) + first;
      BypassesFirst(m, nets[1..], first, p);
      assert forall c :: c in nets <==> c == nets[0] || c in nets[1..];
    }
  }

  lemma {:induction false} KeptAll(cidrs: seq<Option<string>>, seen: set<string>, c: string)
    requires Parses(cidrs)
    ensures c in Kept(cidrs, seen) <==> Some(c) in cidrs && c !in seen
    decreases |cidrs|
  {
    if cidrs != [] {
      var first := cidrs[0].value;
      assert cidrs[0] in cidrs && forall x :: x in cidrs[1..] ==> x in cidrs;
      assert Some(c) in cidrs <==> c == first || Some(c) in cidrs[1..];
      KeptAll(cidrs[1..], if first in seen then seen else seen + {first}, c);
    }
  }

  lemma ExemptKept(m: Sense, cidrs: seq<Option<string>>, p: Packet)
    requires Parses(cidrs)
    ensures Exempt(m, cidrs, p) <==> exists c :: c in Kept(cidrs, {}) && m.inNet(c, p.dest)
  {
    forall c ensures c in Kept(cidrs, {}) <==> Some(c) in cidrs { KeptAll(cidrs, {}, c); }
    if Exempt(m, cidrs, p) {
      var c :| c in cidrs && c.Some? && m.inNet(c.value, p.dest);
      assert c.value in Kept(cidrs, {});
    }
  }

  lemma ChosenEnter(m: Sense, cidrs: seq<Option<string>>, ranges: seq<string>, tool: Tool, p: Packet)
    ensures Enters(m, Installed(cidrs, ranges, NOTHING), tool, p) <==> Chosen(m, ranges, p)
  {
    var n := Installed(cidrs, ranges, NOTHING);
    assert forall r :: r in ranges ==> (tool, r) in n.jumps;
    if Chosen(m, ranges, p) {
      var r :| r in ranges && m.inRange(r, p.uid);
      assert (tool, r) in n.jumps && (tool, r).0 == tool;
    }
  }

  const NOTHING := Net(map[], {}, {}, {})

  /** The installed rules do to every packet what the configuration promises. */
  lemma InstalledKeepsPromise(m: Sense, cidrs: seq<Option<string>>, ranges: seq<string>, p: Packet)
    requires Parses(cidrs)
    ensures FateOf(m, Installed(cidrs, ranges, NOTHING), p) == Promised(m, cidrs, ranges, p)
  {
    hide Enters, Rejects;
    var n := Installed(cidrs, ranges, NOTHING);
    ChosenEnter(m, cidrs, ranges, Iptables, p);
    ChosenEnter(m, cidrs, ranges, Ip6tables, p);
    ExemptKept(m, cidrs, p);
    BypassesFirst(m, Kept(cidrs, {}), [RejectUdp], p);
    assert Rejects(m, [RejectUdp], p) <==> p.udp && p.port != 53 by { OneRule(m, p); }
    assert Rejects(m, [ReturnLoopback, RejectAll], p) <==> p.dest != m.loopback by { TwoRules(m, p); }
    ThrownKept(m, cidrs, ranges, p);
    assert (exists r :: r in n.policies && m.inRange(r, p.uid)) <==> Chosen(m, ranges, p);
  }

  lemma ThrownKept(m: Sense, cidrs: seq<Option<string>>, ranges: seq<string>, p: Packet)
    ensures Thrown(m, Installed(cidrs, ranges, NOTHING), p) <==> exists c :: c in Kept(cidrs, {}) && m.inNet(c, p.dest)
  {
    var n := Installed(cidrs, ranges, NOTHING);
    assert forall c :: c in Kept(cidrs, {}) ==> Throw(c) in n.routes && Throw(c).Throw?;
    if exists c :: c in Kept(cidrs, {}) && m.inNet(c, p.dest) {
      var c :| c in Kept(cidrs, {}) && m.inNet(c, p.dest);
      assert Throw(c) in n.routes && Throw(c).Throw? && m.inNet(Throw(c).cidr, p.dest);
    }
  }

  lemma OneRule(m: Sense, p: Packet)
    ensures Rejects(m, [RejectUdp], p) <==> p.udp && p.port != 53
  {
    assert [RejectUdp][1..] == [];
  }

  lemma TwoRules(m: Sense, p: Packet)
    ensures Rejects(m, [ReturnLoopback, RejectAll], p) <==> p.dest != m.loopback
  {
    assert [ReturnLoopback, RejectAll][1..] == [RejectAll];
  }

  /** On a network without any of these objects an undisturbed start gives every
      packet, which went its own way before, its promised fate. */
  lemma StartKeepsPromise(tape: Tape, s: State, cidrs: seq<Option<string>>, ranges: seq<string>, m: Sense, p: Packet)
    requires CalmFrom(tape, s.clock) && s.journal.None? && s.net == NOTHING && Parses(cidrs) && Distinct(ranges)
    ensures var (after, exit) := Start(tape, s, Capture(cidrs, ranges));
      && exit.Done? && FateOf(m, s.net, p) == Direct && FateOf(m, after.net, p) == Promised(m, cidrs, ranges, p)
  {
    hide Start, FateOf, Installed;
    UndisturbedStart(tape, s, cidrs, ranges);
    InstalledKeepsPromise(m, cidrs, ranges, p);
    assert FateOf(m, NOTHING, p) == Direct by { NothingCaptured(m, p); }
  }

  lemma NothingCaptured(m: Sense, p: Packet)
    ensures FateOf(m, NOTHING, p) == Direct
  {
  }
}
