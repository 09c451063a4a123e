/** redirect.bpf.c and loader_linux.go: how the original destination of a
    redirected connection travels from the connect hook to the proxy. The hook
    stores it with the socket; when the tuple is known it is published in the
    flow map; the proxy looks it up by the tuple of the accepted side. */
module Flows {
  import opened Text

  const ABI_VERSION: nat := 1
  const AF_INET: nat := 2
  const AF_INET6: nat := 10
  const U64: nat := 0x1_0000_0000_0000_0000
  const RESOLVE_NS: nat := 30_000_000_000
  const SWEEP_NS: nat := 60_000_000_000
  const LOOKUPS: nat := 10

  datatype Dest = Dest(family: nat, address: nat, port: nat)

  datatype Value = Value(version: nat, dest: Dest, uid: nat, cookie: nat, created: nat)

  datatype Key = Key(family: nat, client: nat, clientPort: nat, listener: nat, listenerPort: nat)

  datatype Policy = Policy(version: nat, enabled: bool, heartbeat: nat, lease: nat, ipv6: bool, allUids: bool)

  datatype Attempt = Trying(lookups: nat) | Found(value: Value) | Refused

  /** An accepted connection: its tuple, the socket at the other end, and what
      that socket had stored when the connection was made. */
  datatype Conn = Conn(key: Key, sock: nat, dest: Option<Dest>, attempt: Attempt)

  /** `tuples` are the connections whose TCP_CLOSE callback is still to come, `live`
      those of them that the kernel still has. `asked` is history: each socket's
      latest redirected destination. A socket's number is its cookie. */
  datatype State = State(
    now: nat,
    policy: Policy,
    bypassUids: set<nat>,
    targetUids: set<nat>,
    storage: map<nat, Value>,
    tuples: map<nat, Key>,
    live: set<nat>,
    flow: map<Key, Value>,
    conns: seq<Conn>,
    asked: map<nat, Dest>)

  datatype Event =
    | Connect(sock: nat, uid: nat, tcp: bool, dest: Dest, exempt: bool, room: bool)
    | Publish(sock: nat, key: Key, room: bool)
    | Accept(sock: nat)
    | Lookup(conn: nat)
    | Release(sock: nat)
    | Close(sock: nat)
    | Erase(key: Key)
    | Sweep(key: Key, seen: Value)
    | SetEnabled(enabled: bool)
    | Heartbeat
    | Target(uid: nat, present: bool)
    | Wait(ns: nat)

  /** Unsigned 64-bit subtraction. */
  function Elapsed(now: nat, since: nat): nat {
    (now - since) % U64
  }

  /** The connect hook's checks, in order; the first that fails lets it pass. */
  predicate Redirects(s: State, sock: nat, uid: nat, tcp: bool, dest: Dest, exempt: bool, room: bool) {
    && tcp
    && uid !in s.bypassUids
    && s.policy.version == ABI_VERSION && s.policy.enabled && Elapsed(s.now, s.policy.heartbeat) <= s.policy.lease
    && (dest.family == AF_INET6 ==> s.policy.ipv6)
    && (s.policy.allUids || uid in s.targetUids)
    && !exempt
    && sock != 0
    && room
  }

  function ConnectHook(s: State, sock: nat, uid: nat, tcp: bool, dest: Dest, exempt: bool, room: bool): State {
    if !Redirects(s, sock, uid, tcp, dest, exempt, room) then s
    else
      s.(storage := s.storage[sock := Value(ABI_VERSION, dest, uid, sock, s.now)], asked := s.asked[sock := dest])
  }

  /** BPF_SOCK_OPS_TCP_CONNECT_CB */
  function PublishFlow(s: State, sock: nat, key: Key, room: bool): State {
    var bound := s.(tuples := s.tuples[sock := key], live := s.live + {sock});
    if (key.family == AF_INET || key.family == AF_INET6) && sock in s.storage && room
    then bound.(flow := s.flow[key := s.storage[sock]]) else bound
  }

  /** BPF_SOCK_OPS_STATE_CB, new state TCP_CLOSE */
  function CloseFlow(s: State, sock: nat): State {
    if sock !in s.tuples then s
    else
      var key := s.tuples[sock];
      var closed := s.(tuples := s.tuples - {sock}, live := s.live - {sock});
      if sock in s.storage && key in s.flow && s.flow[key].cookie == s.storage[sock].cookie
      then closed.(flow := s.flow - {key}) else closed
  }

  function Accepted(s: State, sock: nat): State {
    if sock !in s.tuples then s
    else
      var dest := if sock in s.storage then Some(s.storage[sock].dest) else None;
      s.(conns := s.conns + [Conn(s.tuples[sock], sock, dest, Trying(0))])
  }

  predicate Usable(s: State, key: Key, v: Value) {
    v.version == ABI_VERSION && v.cookie != 0 && v.dest.family == key.family && Elapsed(s.now, v.created) <= RESOLVE_NS
  }

  /** One of `Resolve`'s lookups. The deletion that follows a success may come any
      time later: it is an Erase. */
  function Attempted(s: State, c: Conn): Attempt {
    match c.attempt
    case Trying(n) =>
      if c.key in s.flow then (if Usable(s, c.key, s.flow[c.key]) then Found(s.flow[c.key]) else Refused)
      else if n + 1 >= LOOKUPS then Refused
      else Trying(n + 1)
    case done => done
  }

  function LookupFlow(s: State, i: nat): State {
    if i >= |s.conns| then s else s.(conns := s.conns[i := s.conns[i].(attempt := Attempted(s, s.conns[i]))])
  }

  /** One entry of `Sweep`: what the iteration returned was old, and the entry found
      by the second lookup is still the same socket's. */
  function SweepFlow(s: State, key: Key, seen: Value): State {
    if Elapsed(s.now, seen.created) > SWEEP_NS && key in s.flow && s.flow[key].cookie == seen.cookie
    then s.(flow := s.flow - {key}) else s
  }

  function Step(s: State, e: Event): State {
    match e
    case Connect(sock, uid, tcp, dest, exempt, room) => ConnectHook(s, sock, uid, tcp, dest, exempt, room)
    case Publish(sock, key, room) => PublishFlow(s, sock, key, room)
    case Accept(sock) => Accepted(s, sock)
    case Lookup(i) => LookupFlow(s, i)
    case Release(sock) => s.(live := s.live - {sock})
    case Close(sock) => CloseFlow(s, sock)
    case Erase(key) => s.(flow := s.flow - {key})
    case Sweep(key, seen) => SweepFlow(s, key, seen)
    case SetEnabled(on) => s.(policy := s.policy.(enabled := on, heartbeat := s.now))
    case Heartbeat => s.(policy := s.policy.(heartbeat := s.now))
    case Target(uid, present) => s.(targetUids := if present then s.targetUids + {uid} else s.targetUids - {uid})
    case Wait(ns) => s.(now := s.now + ns)
  }

  predicate Pending(s: State, key: Key) {
    exists i :: 0 <= i < |s.conns| && s.conns[i].key == key && s.conns[i].attempt.Trying?
  }

  /** What the kernel grants: a socket does not connect again before its TCP_CLOSE
      callback, and a tuple is not used again while its client is live or its
      accepted side unresolved. The old client's callback may still be to come. */
  predicate Legal(s: State, e: Event) {
    match e
    case Connect(sock, _, _, _, _, _) => sock !in s.tuples
    case Publish(sock, key, _) =>
      sock !in s.tuples && !Pending(s, key) && forall other :: other in s.live ==> other in s.tuples && s.tuples[other] != key
    case Accept(sock) => sock in s.live
    case Wait(ns) => s.now + ns < U64
    case _ => true
  }

  predicate Replaces(s: State, sock: nat, key: Key, room: bool) {
    (key.family == AF_INET || key.family == AF_INET6) && sock in s.storage && room
  }

  /** A tuple used again brings its own entry, or finds none that could be taken
      for it. */
  predicate Clean(s: State, e: Event) {
    e.Publish? ==> Replaces(s, e.sock, e.key, e.room) || e.key !in s.flow || !Usable(s, e.key, s.flow[e.key])
  }

  predicate LegalRun(s: State, events: seq<Event>)
    decreases |events|
  {
    events == [] || (Legal(s, events[0]) && LegalRun(Step(s, events[0]), events[1..]))
  }

  predicate CleanRun(s: State, events: seq<Event>)
    decreases |events|
  {
    events == [] || (Clean(s, events[0]) && CleanRun(Step(s, events[0]), events[1..]))
  }

  function Play(s: State, events: seq<Event>): State
    decreases |events|
  {
    if events == [] then s else Play(Step(s, events[0]), events[1..])
  }

  lemma {:induction false} PlayAppend(s: State, a: seq<Event>, b: seq<Event>)
    ensures Play(s, a + b) == Play(Play(s, a), b)
    decreases |a|
  {
    if a == [] {
      assert a + b == b;
    } else {
      assert (a + b)[1..] == a[1..] + b;
      PlayAppend(Step(s, a[0]), a[1..], b);
    }
  }

  // ---- the tables ----

  predicate Published(s: State, key: Key, v: Value) {
    v.cookie in s.tuples && s.tuples[v.cookie] == key && v.cookie in s.storage && s.storage[v.cookie] == v
  }

  predicate Stored(s: State, sock: nat, v: Value) {
    && v.version == ABI_VERSION && v.cookie == sock && sock != 0 && v.created <= s.now
    && sock in s.asked && s.asked[sock] == v.dest && v.uid !in s.bypassUids
  }

  predicate Clocked(s: State) {
    s.policy.heartbeat <= s.now < U64
  }

  /** Every entry is its socket's stored value, under that socket's tuple. */
  predicate Tables(s: State) {
    && Clocked(s)
    && (forall k :: k in s.flow ==> Published(s, k, s.flow[k]))
    && (forall a :: a in s.live ==> a in s.tuples)
    && (forall a, b :: a in s.live && b in s.live && s.tuples[a] == s.tuples[b] ==> a == b)
    && (forall sock :: sock in s.storage ==> Stored(s, sock, s.storage[sock]))
  }

  lemma ConnectTables(s: State, sock: nat, uid: nat, tcp: bool, dest: Dest, exempt: bool, room: bool)
    requires Tables(s) && sock !in s.tuples
    ensures Tables(ConnectHook(s, sock, uid, tcp, dest, exempt, room))
  {
    var next := ConnectHook(s, sock, uid, tcp, dest, exempt, room);
    forall k | k in next.flow ensures Published(next, k, next.flow[k]) { assert Published(s, k, s.flow[k]); }
    forall x | x in next.storage ensures Stored(next, x, next.storage[x]) { assert x != sock ==> Stored(s, x, s.storage[x]); }
  }

  lemma PublishTables(s: State, sock: nat, key: Key, room: bool)
    requires Tables(s) && Legal(s, Publish(sock, key, room))
    ensures Tables(PublishFlow(s, sock, key, room))
  {
    var next := PublishFlow(s, sock, key, room);
    assert sock in s.storage ==> Stored(s, sock, s.storage[sock]);
    forall k | k in next.flow ensures Published(next, k, next.flow[k]) { assert k != key ==> Published(s, k, s.flow[k]); assert k in s.flow ==> Published(s, k, s.flow[k]); }
    forall x | x in next.storage ensures Stored(next, x, next.storage[x]) { assert Stored(s, x, s.storage[x]); }
  }

  lemma CloseTables(s: State, sock: nat)
    requires Tables(s)
    ensures Tables(CloseFlow(s, sock))
  {
    var next := CloseFlow(s, sock);
    assert sock in s.storage ==> Stored(s, sock, s.storage[sock]);
    forall k | k in next.flow ensures Published(next, k, next.flow[k]) { assert Published(s, k, s.flow[k]); }
    forall x | x in next.storage ensures Stored(next, x, next.storage[x]) { assert Stored(s, x, s.storage[x]); }
  }

  /** Fewer flows, fewer live tuples, other connections, a later clock or policy. */
  lemma QuietTables(s: State, next: State)
    requires Tables(s) && s.now <= next.now && Clocked(next) && next.live <= s.live
    requires next == s.(now := next.now, policy := next.policy, targetUids := next.targetUids, flow := next.flow,
                        live := next.live, conns := next.conns)
    requires forall k :: k in next.flow ==> k in s.flow && next.flow[k] == s.flow[k]
    ensures Tables(next)
  {
    forall k | k in next.flow ensures Published(next, k, next.flow[k]) { assert Published(s, k, s.flow[k]); }
    forall x | x in next.storage ensures Stored(next, x, next.storage[x]) { assert Stored(s, x, s.storage[x]); }
  }

  lemma StepTables(s: State, e: Event)
    requires Tables(s) && Legal(s, e)
    ensures Tables(Step(s, e)) && Step(s, e).now >= s.now
  {
    match e
    case Connect(sock, uid, tcp, dest, exempt, room) => ConnectTables(s, sock, uid, tcp, dest, exempt, room);
    case Publish(sock, key, room) => PublishTables(s, sock, key, room);
    case Close(sock) => CloseTables(s, sock);
    case _ => QuietTables(s, Step(s, e));
  }

  // ---- whose destination a connection gets ----

  /** An entry under this tuple is this socket's, or nobody could use it. */
  predicate Own(s: State, sock: nat, key: Key) {
    key in s.flow ==> s.flow[key].cookie == sock || !Usable(s, key, s.flow[key])
  }

  predicate ConnSound(s: State, c: Conn) {
    match c.attempt
    case Trying(n) => n < LOOKUPS && Own(s, c.sock, c.key)
      && (c.key in s.flow && s.flow[c.key].cookie == c.sock ==> c.dest == Some(s.flow[c.key].dest))
    case Found(v) => c.dest == Some(v.dest) && v.cookie == c.sock && v.uid !in s.bypassUids
    case Refused => true
  }

  predicate Inv(s: State) {
    && Tables(s)
    && (forall sock :: sock in s.live ==> Own(s, sock, s.tuples[sock]))
    && (forall i :: 0 <= i < |s.conns| ==> ConnSound(s, s.conns[i]))
  }

  /** Steps that add no entry keep what is known of every tuple. */
  lemma QuietInv(s: State, next: State)
    requires Inv(s) && Tables(next) && s.now <= next.now && next.live <= s.live && next.bypassUids == s.bypassUids
    requires forall sock :: sock in next.live ==> sock in next.tuples && next.tuples[sock] == s.tuples[sock]
    requires forall k :: k in next.flow ==> k in s.flow && next.flow[k] == s.flow[k]
    requires next.conns == s.conns
    ensures Inv(next)
  {
    forall k | k in next.flow && !Usable(s, k, s.flow[k]) ensures !Usable(next, k, next.flow[k]) { StaysUnusable(s, next, k); }
    forall sock | sock in next.live ensures Own(next, sock, next.tuples[sock]) { assert Own(s, sock, s.tuples[sock]); }
    forall i | 0 <= i < |next.conns| ensures ConnSound(next, next.conns[i]) { assert ConnSound(s, s.conns[i]); }
  }

  lemma StaysUnusable(s: State, next: State, k: Key)
    requires Tables(s) && Clocked(next) && s.now <= next.now && k in s.flow && !Usable(s, k, s.flow[k])
    ensures !Usable(next, k, s.flow[k])
  {
    var v := s.flow[k];
    assert Published(s, k, v);
    assert Stored(s, v.cookie, v);
  }

  lemma PublishInv(s: State, sock: nat, key: Key, room: bool)
    requires Inv(s) && Legal(s, Publish(sock, key, room)) && Clean(s, Publish(sock, key, room))
    ensures Inv(PublishFlow(s, sock, key, room))
  {
    var next := PublishFlow(s, sock, key, room);
    PublishTables(s, sock, key, room);
    assert sock in s.storage ==> Stored(s, sock, s.storage[sock]);
    forall x | x in next.live ensures Own(next, x, next.tuples[x]) { assert x != sock ==> Own(s, x, s.tuples[x]); }
    forall i | 0 <= i < |next.conns| ensures ConnSound(next, next.conns[i]) {
      assert ConnSound(s, s.conns[i]);
      assert s.conns[i].attempt.Trying? ==> s.conns[i].key != key;
    }
  }

  lemma AcceptInv(s: State, sock: nat)
    requires Inv(s) && sock in s.live
    ensures Inv(Accepted(s, sock))
  {
    var next := Accepted(s, sock);
    var key := s.tuples[sock];
    QuietTables(s, next);
    forall x | x in next.live ensures Own(next, x, next.tuples[x]) { assert Own(s, x, s.tuples[x]); }
    assert key in s.flow ==> Published(s, key, s.flow[key]);
    forall i | 0 <= i < |next.conns| ensures ConnSound(next, next.conns[i]) { assert i < |s.conns| ==> ConnSound(s, s.conns[i]); }
  }

  lemma LookupInv(s: State, i: nat)
    requires Inv(s)
    ensures Inv(LookupFlow(s, i))
  {
    var next := LookupFlow(s, i);
    QuietTables(s, next);
    forall x | x in next.live ensures Own(next, x, next.tuples[x]) { assert Own(s, x, s.tuples[x]); }
    forall j | 0 <= j < |next.conns| ensures ConnSound(next, next.conns[j]) {
      assert ConnSound(s, s.conns[j]);
      if j == i && s.conns[i].attempt.Trying? {
        LookupOwn(s, i);
      }
    }
  }

  /** A successful lookup returns what this very connection's client asked for,
      which is also what that client asked for last. */
  lemma LookupOwn(s: State, i: nat)
    requires Inv(s) && i < |s.conns| && s.conns[i].attempt.Trying?
    ensures var c := s.conns[i];
      var a := Attempted(s, c);
      a.Found? ==>
        && a.value.cookie == c.sock && c.dest == Some(a.value.dest) && a.value.uid !in s.bypassUids
        && c.sock in s.asked && s.asked[c.sock] == a.value.dest
  {
    var c := s.conns[i];
    assert ConnSound(s, c);
    if c.key in s.flow {
      var v := s.flow[c.key];
      assert Published(s, c.key, v);
      assert Stored(s, v.cookie, s.storage[v.cookie]);
    }
  }

  lemma StepInv(s: State, e: Event)
    requires Inv(s) && Legal(s, e) && Clean(s, e)
    ensures Inv(Step(s, e))
  {
    hide Inv, Tables, Usable;
    InvTables(s);
    StepTables(s, e);
    match e
    case Publish(sock, key, room) => PublishInv(s, sock, key, room);
    case Lookup(i) => LookupInv(s, i);
    case Accept(sock) => AcceptInv(s, sock);
    case _ => OtherInv(s, e);
  }

  lemma OtherInv(s: State, e: Event)
    requires Inv(s) && Legal(s, e) && !e.Publish? && !e.Lookup? && !e.Accept? && Tables(Step(s, e))
    ensures Inv(Step(s, e))
  {
    hide Inv, Tables, Usable;
    assert Tables(s) by { InvTables(s); }
    LiveTuples(s);
    QuietInv(s, Step(s, e));
  }

  lemma InvTables(s: State)
    requires Inv(s)
    ensures Tables(s)
  {
  }

  lemma LiveTuples(s: State)
    requires Tables(s)
    ensures forall a :: a in s.live ==> a in s.tuples
  {
  }

  lemma {:induction false} EveryRunInv(s: State, events: seq<Event>)
    requires Inv(s) && LegalRun(s, events) && CleanRun(s, events)
    ensures Inv(Play(s, events))
    decreases |events|
  {
    hide Inv, Legal, Clean;
    if events != [] {
      StepInv(s, events[0]);
      EveryRunInv(Step(s, events[0]), events[1..]);
    }
  }

  /** For any number of sockets and any interleaving with evictions, sweeps and
      closes: a resolved connection got its own client's destination. */
  lemma EveryResolutionOwn(s: State, events: seq<Event>, i: nat)
    requires Inv(s) && LegalRun(s, events) && CleanRun(s, events) && i < |Play(s, events).conns|
    ensures var c := Play(s, events).conns[i];
      c.attempt.Found? ==>
        c.dest == Some(c.attempt.value.dest) && c.attempt.value.cookie == c.sock && c.attempt.value.uid !in Play(s, events).bypassUids
  {
    EveryRunInv(s, events);
    assert ConnSound(Play(s, events), Play(s, events).conns[i]);
  }

  /** A kernel that runs the callback before it gives the tuple away needs no
      further assumption: there every legal run is clean. */
  lemma {:induction false} PromptRunsAreClean(s: State, events: seq<Event>)
    requires Inv(s) && LegalRun(s, events) && (forall sock :: sock in s.tuples ==> sock in s.live)
    requires forall e :: e in events ==> !e.Release?
    ensures CleanRun(s, events)
    decreases |events|
  {
    if events != [] {
      hide Inv;
      assert events[0] in events && forall e :: e in events[1..] ==> e in events;
      PromptIsClean(s, events[0]);
      StepInv(s, events[0]);
      PromptStep(s, events[0]);
      PromptRunsAreClean(Step(s, events[0]), events[1..]);
    }
  }

  lemma PromptIsClean(s: State, e: Event)
    requires Inv(s) && Legal(s, e) && forall sock :: sock in s.tuples ==> sock in s.live
    ensures Clean(s, e)
  {
    if e.Publish? { assert e.key in s.flow ==> Published(s, e.key, s.flow[e.key]); }
  }

  lemma PromptStep(s: State, e: Event)
    requires !e.Release? && forall sock :: sock in s.tuples ==> sock in s.live
    ensures forall sock :: sock in Step(s, e).tuples ==> sock in Step(s, e).live
  {
  }

  /** Every connection accepted for this socket from here on that is resolved is
      resolved to the socket's own entry. */
  ghost predicate ResolvesOwn(s: State, sock: nat) {
    forall events, i {:trigger Play(s, events).conns[i]} ::
      LegalRun(s, events) && CleanRun(s, events) && |s.conns| <= i < |Play(s, events).conns|
      && Play(s, events).conns[i].sock == sock && Play(s, events).conns[i].attempt.Found?
      ==> Play(s, events).conns[i].attempt.value.cookie == sock
  }

  /** With a callback that comes after the tuple was given away, the old entry may
      still be there. Using the tuple again is then harmless exactly when the new
      socket publishes over it or nobody could use it any more: a socket that
      was not redirected, or whose publication found no room, otherwise gets
      the old socket's destination. */
  lemma ReuseExactly(s: State, sock: nat, key: Key, room: bool)
    requires Inv(s) && Legal(s, Publish(sock, key, room))
    ensures ResolvesOwn(PublishFlow(s, sock, key, room), sock) <==> Clean(s, Publish(sock, key, room))
  {
    hide Inv, Usable;
    var next := PublishFlow(s, sock, key, room);
    if Clean(s, Publish(sock, key, room)) {
      PublishInv(s, sock, key, room);
      forall events, i | LegalRun(next, events) && CleanRun(next, events) && |next.conns| <= i < |Play(next, events).conns|
        && Play(next, events).conns[i].sock == sock && Play(next, events).conns[i].attempt.Found?
        ensures Play(next, events).conns[i].attempt.value.cookie == sock
      {
        EveryResolutionOwn(next, events, i);
      }
    } else {
      TakenForOther(s, sock, key, room);
    }
  }

  lemma TakenForOther(s: State, sock: nat, key: Key, room: bool)
    requires Inv(s) && Legal(s, Publish(sock, key, room)) && !Clean(s, Publish(sock, key, room))
    ensures !ResolvesOwn(PublishFlow(s, sock, key, room), sock)
  {
    var next := PublishFlow(s, sock, key, room);
    var i := |next.conns|;
    var events := [Accept(sock), Lookup(i)];
    var accepted := Step(next, Accept(sock));
    assert events[1..] == [Lookup(i)] && events[1..][1..] == [];
    var end := Step(accepted, Lookup(i));
    assert Play(next, events) == end by {
      assert Play(accepted, [Lookup(i)]) == end;
    }
    assert LegalRun(next, events) && CleanRun(next, events) by {
      assert LegalRun(accepted, [Lookup(i)]) && CleanRun(accepted, [Lookup(i)]);
    }
    assert Published(s, key, s.flow[key]);
    assert end.conns[i].attempt == Found(s.flow[key]);
    assert Play(next, events).conns[i].sock == sock;
  }

  // ---- undisturbed connections are resolved ----

  /** The event does not take the socket's flow away: it is not its own close, an
      eviction, or a sweep that read an older entry of the same socket. */
  predicate Undisturbed(e: Event, sock: nat, key: Key, v: Value) {
    e != Close(sock) && e != Release(sock) && e != Erase(key)
    && (e.Sweep? && e.key == key && e.seen.cookie == sock ==> e.seen == v)
  }

  predicate Carries(s: State, sock: nat, key: Key, v: Value) {
    && sock in s.live && sock in s.tuples && s.tuples[sock] == key && sock in s.storage && s.storage[sock] == v
    && key in s.flow && s.flow[key] == v
  }

  /** Other clients, the callbacks of earlier clients of the tuple however late,
      and sweeps leave it alone. */
  lemma CarriesOn(s: State, e: Event, sock: nat, key: Key, v: Value)
    requires Tables(s) && Legal(s, e) && Carries(s, sock, key, v) && Undisturbed(e, sock, key, v)
    requires Step(s, e).now <= v.created + RESOLVE_NS
    ensures Carries(Step(s, e), sock, key, v)
  {
    assert Stored(s, sock, v);
    match e
    case Close(other) => {
      if other in s.storage { assert Stored(s, other, s.storage[other]); }
    }
    case _ =>
  }

  lemma {:induction false} FlowStays(s: State, events: seq<Event>, sock: nat, key: Key, v: Value)
    requires Tables(s) && LegalRun(s, events) && Carries(s, sock, key, v)
    requires forall e :: e in events ==> Undisturbed(e, sock, key, v)
    requires Play(s, events).now <= v.created + RESOLVE_NS
    ensures Tables(Play(s, events)) && Carries(Play(s, events), sock, key, v)
    decreases |events|
  {
    hide Tables, Legal, Carries;
    if events != [] {
      var next := Step(s, events[0]);
      PlayMoves(next, events[1..]);
      StepTables(s, events[0]);
      assert events[0] in events && forall e :: e in events[1..] ==> e in events;
      CarriesOn(s, events[0], sock, key, v);
      FlowStays(next, events[1..], sock, key, v);
    }
  }

  lemma {:induction false} PlayMoves(s: State, events: seq<Event>)
    ensures Play(s, events).now >= s.now
    decreases |events|
  {
    if events != [] {
      StepMoves(s, events[0]);
      PlayMoves(Step(s, events[0]), events[1..]);
    }
  }

  lemma StepMoves(s: State, e: Event)
    ensures Step(s, e).now >= s.now
  {
  }

  /** From its publication, whatever the others do, a connection that is looked up
      within 30 s of its connect is resolved unless its own flow is closed,
      evicted or erased. */
  lemma UndisturbedResolves(s: State, events: seq<Event>, sock: nat, key: Key, v: Value, i: nat)
    requires Tables(s) && LegalRun(s, events) && Carries(s, sock, key, v)
    requires forall e :: e in events ==> Undisturbed(e, sock, key, v)
    requires Play(s, events).now <= v.created + RESOLVE_NS && v.dest.family == key.family
    requires i < |Play(s, events).conns| && Play(s, events).conns[i].key == key && Play(s, events).conns[i].attempt.Trying?
    ensures Attempted(Play(s, events), Play(s, events).conns[i]) == Found(v)
  {
    hide LegalRun, Play, Undisturbed;
    FlowStays(s, events, sock, key, v);
    assert Stored(Play(s, events), sock, v);
  }

  /** The callback of an earlier client comes late, after the tuple was given to
      another and that one published: the newer entry survives, by its cookie. */
  lemma LateCallbackSpares(s: State, earlier: nat, sock: nat, key: Key, v: Value)
    requires Tables(s) && Carries(s, sock, key, v)
    requires earlier != sock && earlier in s.tuples && s.tuples[earlier] == key && earlier in s.storage
    ensures Carries(CloseFlow(s, earlier), sock, key, v)
  {
    assert Stored(s, sock, v) && Stored(s, earlier, s.storage[earlier]);
  }

  /** Such a state is reached: the first socket's callback is still to come when the
      second has published under its tuple. */
  lemma LateCallbackHappens(s: State, earlier: nat, sock: nat, key: Key)
    requires Tables(s) && earlier in s.live && s.tuples[earlier] == key && earlier in s.storage
    requires sock !in s.tuples && sock in s.storage && !Pending(s, key) && (key.family == AF_INET || key.family == AF_INET6)
    ensures var events := [Release(earlier), Publish(sock, key, true)];
      LegalRun(s, events) && CleanRun(s, events)
      && Carries(Play(s, events), sock, key, s.storage[sock]) && earlier in Play(s, events).tuples && Play(s, events).tuples[earlier] == key
  {
    var events := [Release(earlier), Publish(sock, key, true)];
    var released := Step(s, Release(earlier));
    assert events[1..] == [Publish(sock, key, true)] && events[1..][1..] == [];
    assert !Pending(released, key);
    assert LegalRun(released, events[1..]) && CleanRun(released, events[1..]);
    assert Play(released, events[1..]) == PublishFlow(released, sock, key, true);
  }

  /** A sweep of what it just read removes nothing that a lookup could still use. */
  lemma SweepHarmless(s: State, key: Key, swept: Key)
    requires Tables(s) && swept in s.flow
    ensures var next := SweepFlow(s, swept, s.flow[swept]);
      (key in s.flow && Usable(s, key, s.flow[key])) <==> (key in next.flow && Usable(next, key, next.flow[key]))
  {
  }

  // ---- what a resolution fits ----

  /** Each resolved connection got a value of this version, of some socket, and of
      the connection's own address family. */
  predicate Fitting(s: State) {
    forall i :: 0 <= i < |s.conns| ==> Fits(s.conns[i])
  }

  predicate Fits(c: Conn) {
    match c.attempt
    case Found(v) => v.version == ABI_VERSION && v.cookie != 0 && v.dest.family == c.key.family
    case _ => true
  }

  lemma StepFits(s: State, e: Event)
    requires Fitting(s)
    ensures Fitting(Step(s, e))
  {
    hide Redirects;
    var next := Step(s, e);
    forall i | 0 <= i < |next.conns| ensures Fits(next.conns[i]) { assert i < |s.conns| ==> Fits(s.conns[i]); }
  }

  /** Over any run, whatever the map held to begin with. */
  lemma {:induction false} EveryResolutionFits(s: State, events: seq<Event>)
    requires Fitting(s)
    ensures Fitting(Play(s, events))
    decreases |events|
  {
    hide Step, Fitting;
    if events != [] {
      StepFits(s, events[0]);
      EveryResolutionFits(Step(s, events[0]), events[1..]);
    }
  }

  // ---- losing entries only loses successes ----

  /** The same run, with further entries vanishing after every event. */
  function PlayLossy(s: State, events: seq<Event>, drops: seq<set<Key>>): State
    requires |drops| == |events|
    decreases |events|
  {
    if events == [] then s else PlayLossy(Dropped(Step(s, events[0]), drops[0]), events[1..], drops[1..])
  }

  function Dropped(s: State, keys: set<Key>): State {
    s.(flow := s.flow - keys)
  }

  predicate LegalLossy(s: State, events: seq<Event>, drops: seq<set<Key>>)
    requires |drops| == |events|
    decreases |events|
  {
    events == [] || (Legal(s, events[0]) && LegalLossy(Dropped(Step(s, events[0]), drops[0]), events[1..], drops[1..]))
  }

  predicate LossyConn(c: Conn, l: Conn, flow: map<Key, Value>) {
    && l == c.(attempt := l.attempt)
    && (l.attempt == c.attempt || (!c.attempt.Trying? && (l.attempt.Refused? || (l.attempt.Trying? && l.key !in flow))))
  }

  predicate Lossy(s: State, l: State) {
    && l == s.(flow := l.flow, conns := l.conns)
    && (forall k :: k in l.flow ==> k in s.flow && l.flow[k] == s.flow[k])
    && |l.conns| == |s.conns| && forall i :: 0 <= i < |s.conns| ==> LossyConn(s.conns[i], l.conns[i], l.flow)
  }

  lemma LossyLegal(s: State, l: State, e: Event)
    requires Lossy(s, l) && Legal(l, e)
    ensures Legal(s, e)
  {
    if e.Publish? && Pending(s, e.key) {
      var i :| 0 <= i < |s.conns| && s.conns[i].key == e.key && s.conns[i].attempt.Trying?;
      assert LossyConn(s.conns[i], l.conns[i], l.flow);
      assert Pending(l, e.key);
      assert false;
    }
  }

  lemma LossyStep(s: State, l: State, e: Event)
    requires Lossy(s, l) && Legal(l, e)
    ensures Lossy(Step(s, e), Step(l, e))
  {
    match e
    case Connect(sock, uid, tcp, dest, exempt, room) =>
      var n := ConnectHook(s, sock, uid, tcp, dest, exempt, room);
      LossyFlow(s, l, n, ConnectHook(l, sock, uid, tcp, dest, exempt, room), n.flow, l.flow);
    case Publish(sock, key, room) => LossyPublish(s, l, sock, key, room);
    case Lookup(i) => LossyLookup(s, l, i);
    case Accept(sock) => LossyAccept(s, l, sock);
    case Close(sock) => LossyClose(s, l, sock);
    case Release(sock) => LossyFlow(s, l, Step(s, e), Step(l, e), s.flow, l.flow);
    case Erase(key) => LossyFlow(s, l, Step(s, e), Step(l, e), s.flow - {key}, l.flow - {key});
    case Sweep(key, seen) => LossySweep(s, l, key, seen);
    case _ => LossyFlow(s, l, Step(s, e), Step(l, e), s.flow, l.flow);
  }

  /** A step that leaves the connections alone and removes flows alike. */
  lemma LossyFlow(s: State, l: State, n: State, m: State, flow: map<Key, Value>, less: map<Key, Value>)
    requires Lossy(s, l) && n.conns == s.conns && m.conns == l.conns && n.flow == flow && m.flow == less
    requires m == n.(flow := less, conns := l.conns)
    requires forall k :: k in less ==> k in flow && less[k] == flow[k] && k in l.flow
    ensures Lossy(n, m)
  {
    forall i | 0 <= i < |n.conns| ensures LossyConn(n.conns[i], m.conns[i], m.flow) {
      assert LossyConn(s.conns[i], l.conns[i], l.flow);
    }
  }

  lemma LossyAccept(s: State, l: State, sock: nat)
    requires Lossy(s, l)
    ensures Lossy(Accepted(s, sock), Accepted(l, sock))
  {
    var n, m := Accepted(s, sock), Accepted(l, sock);
    forall i | 0 <= i < |n.conns| ensures LossyConn(n.conns[i], m.conns[i], m.flow) {
      assert i < |s.conns| ==> LossyConn(s.conns[i], l.conns[i], l.flow);
    }
  }

  lemma LossySweep(s: State, l: State, key: Key, seen: Value)
    requires Lossy(s, l)
    ensures Lossy(SweepFlow(s, key, seen), SweepFlow(l, key, seen))
  {
    var n, m := SweepFlow(s, key, seen), SweepFlow(l, key, seen);
    assert key in l.flow ==> key in s.flow && l.flow[key] == s.flow[key];
    assert forall k :: k in m.flow ==> k in l.flow && k in n.flow && m.flow[k] == n.flow[k];
    LossyFlow(s, l, n, m, n.flow, m.flow);
  }

  lemma LossyClose(s: State, l: State, sock: nat)
    requires Lossy(s, l)
    ensures Lossy(CloseFlow(s, sock), CloseFlow(l, sock))
  {
    if sock in s.tuples {
      var n, m := CloseFlow(s, sock), CloseFlow(l, sock);
      var key := s.tuples[sock];
      assert key in l.flow ==> key in s.flow && l.flow[key] == s.flow[key];
      assert forall k :: k in m.flow ==> k in l.flow && k in n.flow && m.flow[k] == n.flow[k];
      LossyFlow(s, l, n, m, n.flow, m.flow);
    }
  }

  lemma LossyPublish(s: State, l: State, sock: nat, key: Key, room: bool)
    requires Lossy(s, l) && Legal(l, Publish(sock, key, room))
    ensures Lossy(PublishFlow(s, sock, key, room), PublishFlow(l, sock, key, room))
  {
    var n, m := PublishFlow(s, sock, key, room), PublishFlow(l, sock, key, room);
    forall i | 0 <= i < |n.conns| ensures LossyConn(n.conns[i], m.conns[i], m.flow) {
      assert LossyConn(s.conns[i], l.conns[i], l.flow);
      assert l.conns[i].attempt.Trying? ==> l.conns[i].key != key;
    }
  }

  lemma LossyLookup(s: State, l: State, i: nat)
    requires Lossy(s, l)
    ensures Lossy(LookupFlow(s, i), LookupFlow(l, i))
  {
    var n, m := LookupFlow(s, i), LookupFlow(l, i);
    forall j | 0 <= j < |n.conns| ensures LossyConn(n.conns[j], m.conns[j], m.flow) {
      assert LossyConn(s.conns[j], l.conns[j], l.flow);
    }
  }

  /** Whatever removes entries - a stale close, a sweep, an eviction, the second
      half of a racing deletion - can only turn a success into an error: every
      connection resolved in the run with losses was resolved alike without. */
  lemma {:induction false} LossesOnlyFail(s: State, l: State, events: seq<Event>, drops: seq<set<Key>>)
    requires |drops| == |events| && Lossy(s, l) && LegalLossy(l, events, drops)
    ensures LegalRun(s, events)
    ensures var n, m := Play(s, events), PlayLossy(l, events, drops);
      |m.conns| == |n.conns| && forall i :: 0 <= i < |n.conns| && m.conns[i].attempt.Found? ==> n.conns[i] == m.conns[i]
    decreases |events|
  {
    hide Legal, Lossy;
    if events != [] {
      LossyLegal(s, l, events[0]);
      LossyStep(s, l, events[0]);
      var n, m := Step(s, events[0]), Step(l, events[0]);
      DroppedLossy(n, m, drops[0]);
      LossesOnlyFail(n, Dropped(m, drops[0]), events[1..], drops[1..]);
    } else {
      LossyFound(s, l);
    }
  }

  lemma LossyFound(s: State, l: State)
    requires Lossy(s, l)
    ensures |l.conns| == |s.conns| && forall i :: 0 <= i < |s.conns| && l.conns[i].attempt.Found? ==> s.conns[i] == l.conns[i]
  {
    forall i | 0 <= i < |s.conns| && l.conns[i].attempt.Found? ensures s.conns[i] == l.conns[i] {
      assert LossyConn(s.conns[i], l.conns[i], l.flow);
    }
  }

  lemma DroppedLossy(s: State, l: State, keys: set<Key>)
    requires Lossy(s, l)
    ensures Lossy(s, Dropped(l, keys))
  {
    forall i | 0 <= i < |s.conns| ensures LossyConn(s.conns[i], l.conns[i], Dropped(l, keys).flow) {
      assert LossyConn(s.conns[i], l.conns[i], l.flow);
    }
  }

  // ---- the lease ----

  lemma SilentStep(s: State, e: Event)
    requires Clocked(s) && Legal(s, e) && s.now > s.policy.heartbeat + s.policy.lease && !e.Heartbeat? && !e.SetEnabled?
    ensures var next := Step(s, e);
      next.policy == s.policy && s.now <= next.now && Clocked(next) && next.storage == s.storage && next.asked == s.asked
  {
    assert s.now - s.policy.heartbeat < U64;
  }

  /** Once the daemon has been silent for longer than its lease, nothing is
      redirected any more. */
  lemma {:induction false} SilentDaemonRedirectsNothing(s: State, events: seq<Event>)
    requires Clocked(s) && LegalRun(s, events) && s.now > s.policy.heartbeat + s.policy.lease
    requires forall e :: e in events ==> !e.Heartbeat? && !e.SetEnabled?
    ensures Play(s, events).storage == s.storage && Play(s, events).asked == s.asked
    decreases |events|
  {
    if events != [] {
      hide Clocked, Legal, Step;
      assert events[0] in events;
      SilentStep(s, events[0]);
      assert forall e :: e in events[1..] ==> e in events;
      SilentDaemonRedirectsNothing(Step(s, events[0]), events[1..]);
    }
  }
}
