/** Whose connections the hooks of redirect.bpf.c capture, over whole runs and told
    from the events alone: who was last made a target, when the daemon last spoke,
    what was asked for. */
module Capture {
  import opened Text
  import opened Flows

  /** Before any connection: the daemon has loaded its policy and its users. */
  predicate Beginning(s: State) {
    && s.storage == map[] && s.flow == map[] && s.tuples == map[] && s.live == {} && s.conns == [] && s.asked == map[]
    && s.policy.heartbeat <= s.now < U64
  }

  // ---- what the events say ----

  /** The last word about this user. */
  predicate Targeted(events: seq<Event>, uid: nat, initially: bool)
    decreases |events|
  {
    if events == [] then initially
    else
      var n := |events| - 1;
      match events[n]
      case Target(u, present) => if u == uid then present else Targeted(events[..n], uid, initially)
      case _ => Targeted(events[..n], uid, initially)
  }

  predicate SwitchedOn(events: seq<Event>, initially: bool)
    decreases |events|
  {
    if events == [] then initially
    else
      var n := |events| - 1;
      if events[n].SetEnabled? then events[n].enabled else SwitchedOn(events[..n], initially)
  }

  function Waited(events: seq<Event>): nat
    decreases |events|
  {
    if events == [] then 0
    else
      var n := |events| - 1;
      Waited(events[..n]) + if events[n].Wait? then events[n].ns else 0
  }

  /** For how long the daemon has been silent. */
  function Silence(events: seq<Event>, initially: nat): nat
    decreases |events|
  {
    if events == [] then initially
    else
      var n := |events| - 1;
      match events[n]
      case SetEnabled(_) => 0
      case Heartbeat => 0
      case Wait(ns) => Silence(events[..n], initially) + ns
      case _ => Silence(events[..n], initially)
  }

  /** The connections to capture: TCP, of a user who is a target and not bypassed,
      while the daemon is enabled and heard of, to a destination that is not
      exempt, IPv6 only where it is on; the kernel has to give a cookie and room. */
  predicate Captures(s: State, past: seq<Event>, e: Event)
    requires s.policy.heartbeat <= s.now
  {
    && e.Connect? && e.tcp && !e.exempt
    && (s.policy.allUids || Targeted(past, e.uid, e.uid in s.targetUids))
    && e.uid !in s.bypassUids
    && s.policy.version == ABI_VERSION && SwitchedOn(past, s.policy.enabled)
    && Silence(past, s.now - s.policy.heartbeat) <= s.policy.lease
    && (e.dest.family == AF_INET6 ==> s.policy.ipv6)
    && e.sock != 0 && e.room
  }

  /** What a captured connection is remembered as. */
  function Remembered(s: State, past: seq<Event>, e: Event): Value
    requires e.Connect?
  {
    Value(ABI_VERSION, e.dest, e.uid, e.sock, s.now + Waited(past))
  }

  /** The socket's last captured connection. */
  function LastCaptured(s: State, events: seq<Event>, sock: nat): Option<Value>
    requires s.policy.heartbeat <= s.now
    decreases |events|
  {
    if events == [] then None
    else
      var n := |events| - 1;
      if Captures(s, events[..n], events[n]) && events[n].sock == sock then Some(Remembered(s, events[..n], events[n]))
      else LastCaptured(s, events[..n], sock)
  }

  /** The value is that of a connection of these events which was to be captured. */
  ghost predicate Asked(s: State, events: seq<Event>, v: Value)
    requires s.policy.heartbeat <= s.now
  {
    exists k :: 0 <= k < |events| && IsCapture(s, events, k, v)
  }

  predicate IsCapture(s: State, events: seq<Event>, k: nat, v: Value)
    requires k < |events| && s.policy.heartbeat <= s.now
  {
    Captures(s, events[..k], events[k]) && v == Remembered(s, events[..k], events[k])
  }

  // ---- the tables follow the events ----

  lemma PlayLast(s: State, events: seq<Event>)
    requires events != []
    ensures var n := |events| - 1; Play(s, events) == Step(Play(s, events[..n]), events[n])
  {
    var n := |events| - 1;
    var before := Play(s, events[..n]);
    PlayAppend(s, events[..n], [events[n]]);
    assert events[..n] + [events[n]] == events && [events[n]][1..] == [];
    assert Play(Step(before, events[n]), []) == Step(before, events[n]);
  }

  lemma {:induction false} LegalSplit(s: State, a: seq<Event>, b: seq<Event>)
    requires LegalRun(s, a + b)
    ensures LegalRun(s, a) && LegalRun(Play(s, a), b)
    decreases |a|
  {
    hide Legal, Step;
    if a == [] {
      assert a + b == b;
    } else {
      assert (a + b)[1..] == a[1..] + b;
      LegalSplit(Step(s, a[0]), a[1..], b);
    }
  }

  lemma LegalLast(s: State, events: seq<Event>)
    requires LegalRun(s, events) && events != []
    ensures var n := |events| - 1; LegalRun(s, events[..n]) && Legal(Play(s, events[..n]), events[n])
  {
    var n := |events| - 1;
    assert events[..n] + [events[n]] == events;
    LegalSplit(s, events[..n], [events[n]]);
  }

  predicate ClockFollows(s: State, events: seq<Event>, now: State)
    requires s.policy.heartbeat <= s.now
  {
    && now.bypassUids == s.bypassUids
    && now.policy == s.policy.(enabled := SwitchedOn(events, s.policy.enabled), heartbeat := now.policy.heartbeat)
    && now.now == s.now + Waited(events)
    && now.policy.heartbeat + Silence(events, s.now - s.policy.heartbeat) == now.now < U64
  }

  /** What the maps say after a run is what the events said. */
  ghost predicate Follows(s: State, events: seq<Event>, now: State)
    requires s.policy.heartbeat <= s.now
  {
    ClockFollows(s, events, now) && forall u :: u in now.targetUids <==> Targeted(events, u, u in s.targetUids)
  }

  lemma {:induction false} MapsFollow(s: State, events: seq<Event>)
    requires s.policy.heartbeat <= s.now < U64 && LegalRun(s, events)
    ensures Follows(s, events, Play(s, events))
    decreases |events|
  {
    if events != [] {
      var n := |events| - 1;
      PlayLast(s, events);
      LegalLast(s, events);
      MapsFollow(s, events[..n]);
      FollowsOn(s, events, Play(s, events[..n]));
    }
  }

  lemma FollowsOn(s: State, events: seq<Event>, before: State)
    requires s.policy.heartbeat <= s.now && events != []
    requires Follows(s, events[..|events| - 1], before) && Legal(before, events[|events| - 1])
    ensures Follows(s, events, Step(before, events[|events| - 1]))
  {
    hide Legal, Targeted, ClockFollows;
    var n := |events| - 1;
    ClockOn(s, events, before);
    forall u ensures u in Step(before, events[n]).targetUids <==> Targeted(events, u, u in s.targetUids) {
      TargetOn(s, events, before, u);
    }
  }

  lemma TargetOn(s: State, events: seq<Event>, before: State, u: nat)
    requires events != [] && (u in before.targetUids <==> Targeted(events[..|events| - 1], u, u in s.targetUids))
    ensures u in Step(before, events[|events| - 1]).targetUids <==> Targeted(events, u, u in s.targetUids)
  {
    hide Redirects;
  }

  lemma ClockOn(s: State, events: seq<Event>, before: State)
    requires s.policy.heartbeat <= s.now && events != []
    requires ClockFollows(s, events[..|events| - 1], before) && Legal(before, events[|events| - 1])
    ensures ClockFollows(s, events, Step(before, events[|events| - 1]))
  {
    hide Step, Legal;
    StepClock(before, events[|events| - 1]);
  }

  lemma StepClock(s: State, e: Event)
    ensures var next := Step(s, e);
      && next.bypassUids == s.bypassUids
      && next.policy == s.policy.(enabled := if e.SetEnabled? then e.enabled else s.policy.enabled,
                                  heartbeat := if e.SetEnabled? || e.Heartbeat? then s.now else s.policy.heartbeat)
      && next.now == s.now + if e.Wait? then e.ns else 0
    ensures Legal(s, e) && e.Wait? ==> Step(s, e).now < U64
  {
    hide Redirects, Pending, Attempted;
  }

  /** After any run the hook redirects exactly the connections to capture. */
  lemma CaptureExactly(s: State, past: seq<Event>, e: Event)
    requires s.policy.heartbeat <= s.now < U64 && LegalRun(s, past) && e.Connect?
    ensures Redirects(Play(s, past), e.sock, e.uid, e.tcp, e.dest, e.exempt, e.room) <==> Captures(s, past, e)
  {
    hide Play, LegalRun;
    MapsFollow(s, past);
    var now := Play(s, past);
    assert e.uid in now.targetUids <==> Targeted(past, e.uid, e.uid in s.targetUids);
    assert now.now - now.policy.heartbeat < U64;
  }

  /** After any run each socket has stored its last captured connection. */
  lemma {:induction false} StorageIsCaptured(s: State, events: seq<Event>, sock: nat)
    requires Beginning(s) && LegalRun(s, events)
    ensures var storage := Play(s, events).storage;
      LastCaptured(s, events, sock) == if sock in storage then Some(storage[sock]) else None
    decreases |events|
  {
    if events != [] {
      hide LegalRun, Play, Redirects, Captures, Legal;
      var n := |events| - 1;
      var past, e := events[..n], events[n];
      PlayLast(s, events);
      LegalLast(s, events);
      StorageIsCaptured(s, past, sock);
      MapsFollow(s, past);
      if e.Connect? {
        CaptureExactly(s, past, e);
      } else {
        NoOtherCaptures(s, past, e);
      }
    }
  }

  lemma NoOtherCaptures(s: State, past: seq<Event>, e: Event)
    requires s.policy.heartbeat <= s.now && !e.Connect?
    ensures !Captures(s, past, e)
  {
  }

  lemma {:induction false} LastCapturedAsked(s: State, events: seq<Event>, sock: nat)
    requires s.policy.heartbeat <= s.now && LastCaptured(s, events, sock).Some?
    ensures Asked(s, events, LastCaptured(s, events, sock).value) && LastCaptured(s, events, sock).value.cookie == sock
    decreases |events|
  {
    var n := |events| - 1;
    if Captures(s, events[..n], events[n]) && events[n].sock == sock {
      assert IsCapture(s, events, n, LastCaptured(s, events, sock).value);
    } else {
      LastCapturedAsked(s, events[..n], sock);
      AskedLater(s, events, LastCaptured(s, events, sock).value);
    }
  }

  lemma AskedLater(s: State, events: seq<Event>, v: Value)
    requires s.policy.heartbeat <= s.now && events != [] && Asked(s, events[..|events| - 1], v)
    ensures Asked(s, events, v)
  {
    var past := events[..|events| - 1];
    var k :| 0 <= k < |past| && IsCapture(s, past, k, v);
    assert past[..k] == events[..k];
    assert IsCapture(s, events, k, v);
  }

  // ---- nobody else is captured ----

  ghost predicate OnlyAsked(s: State, events: seq<Event>, now: State)
    requires s.policy.heartbeat <= s.now
  {
    && (forall sock :: sock in now.storage ==> Asked(s, events, now.storage[sock]) && now.storage[sock].cookie == sock)
    && (forall key :: key in now.flow ==> Asked(s, events, now.flow[key]))
    && forall i :: 0 <= i < |now.conns| && now.conns[i].attempt.Found? ==> Asked(s, events, now.conns[i].attempt.value)
  }

  /** Over every run, however disturbed: each value stored, published or resolved is
      that of a connection which was to be captured. */
  lemma {:induction false} OnlyCaptured(s: State, events: seq<Event>)
    requires Beginning(s) && LegalRun(s, events)
    ensures OnlyAsked(s, events, Play(s, events))
    decreases |events|
  {
    if events != [] {
      hide LegalRun, Play, Legal, OnlyAsked;
      var n := |events| - 1;
      PlayLast(s, events);
      LegalLast(s, events);
      OnlyCaptured(s, events[..n]);
      StoredAsked(s, events);
      AskedOn(s, events, Play(s, events[..n]));
    } else {
      assert Play(s, events) == s;
    }
  }

  lemma StoredAsked(s: State, events: seq<Event>)
    requires Beginning(s) && LegalRun(s, events)
    ensures var storage := Play(s, events).storage;
      forall sock :: sock in storage ==> Asked(s, events, storage[sock]) && storage[sock].cookie == sock
  {
    var storage := Play(s, events).storage;
    forall sock | sock in storage ensures Asked(s, events, storage[sock]) && storage[sock].cookie == sock {
      StorageIsCaptured(s, events, sock);
      LastCapturedAsked(s, events, sock);
    }
  }

  lemma AskedOn(s: State, events: seq<Event>, before: State)
    requires s.policy.heartbeat <= s.now && events != [] && OnlyAsked(s, events[..|events| - 1], before)
    requires var storage := Step(before, events[|events| - 1]).storage;
      forall sock :: sock in storage ==> Asked(s, events, storage[sock]) && storage[sock].cookie == sock
    ensures OnlyAsked(s, events, Step(before, events[|events| - 1]))
  {
    hide Asked, Step;
    var past, e := events[..|events| - 1], events[|events| - 1];
    var after := Step(before, e);
    forall v | Asked(s, past, v) ensures Asked(s, events, v) { AskedLater(s, events, v); }
    forall key | key in after.flow ensures Asked(s, events, after.flow[key]) {
      FlowFrom(before, e, key);
    }
    forall i | 0 <= i < |after.conns| && after.conns[i].attempt.Found? ensures Asked(s, events, after.conns[i].attempt.value) {
      FoundFrom(before, e, i);
    }
  }

  lemma FlowFrom(s: State, e: Event, key: Key)
    requires key in Step(s, e).flow
    ensures (key in s.flow && Step(s, e).flow[key] == s.flow[key])
      || exists sock :: sock in s.storage && Step(s, e).flow[key] == s.storage[sock]
  {
    hide Redirects, Attempted;
  }

  lemma FoundFrom(s: State, e: Event, i: nat)
    requires i < |Step(s, e).conns| && Step(s, e).conns[i].attempt.Found?
    ensures (i < |s.conns| && s.conns[i].attempt == Step(s, e).conns[i].attempt)
      || exists key :: key in s.flow && Step(s, e).conns[i].attempt.value == s.flow[key]
  {
    hide Redirects, Usable;
    var now := Step(s, e).conns[i].attempt;
    if i < |s.conns| && s.conns[i].attempt != now {
      assert e == Lookup(i);
      assert s.conns[i].key in s.flow && now.value == s.flow[s.conns[i].key];
    }
  }

  lemma BeginningInv(s: State)
    requires Beginning(s)
    ensures Inv(s)
  {
  }

  /** In a clean run every resolved connection is one that its own client asked for
      and that was to be captured. */
  lemma ResolvedWasCaptured(s: State, events: seq<Event>, i: nat)
    requires Beginning(s) && LegalRun(s, events) && CleanRun(s, events)
    requires i < |Play(s, events).conns| && Play(s, events).conns[i].attempt.Found?
    ensures var c := Play(s, events).conns[i];
      Asked(s, events, c.attempt.value) && c.attempt.value.cookie == c.sock && c.dest == Some(c.attempt.value.dest)
  {
    hide LegalRun, CleanRun, Play, Asked, Inv;
    BeginningInv(s);
    EveryResolutionOwn(s, events, i);
    OnlyCaptured(s, events);
  }

  // ---- and everybody who should be ----

  ghost predicate Undisturbing(events: seq<Event>, sock: nat, key: Key, v: Value) {
    forall e :: e in events ==> Undisturbed(e, sock, key, v)
  }

  /** A connection to capture, established and published before another of its
      socket, and then undisturbed, is resolved to what it asked for, whatever
      all the others do. */
  lemma CapturedResolves(s: State, past: seq<Event>, e: Event, between: seq<Event>, key: Key, rest: seq<Event>, i: nat)
    requires Beginning(s) && Captures(s, past, e) && key.family == e.dest.family
    requires key.family == AF_INET || key.family == AF_INET6
    requires forall d :: d in between ==> !(d.Connect? && d.sock == e.sock)
    requires Undisturbing(rest, e.sock, key, Remembered(s, past, e))
    requires var events := past + [e] + between + [Publish(e.sock, key, true)] + rest;
      && LegalRun(s, events) && Waited(events) <= Waited(past) + RESOLVE_NS
      && i < |Play(s, events).conns| && Play(s, events).conns[i].key == key && Play(s, events).conns[i].attempt.Trying?
    ensures var events := past + [e] + between + [Publish(e.sock, key, true)] + rest;
      var found := Attempted(Play(s, events), Play(s, events).conns[i]);
      found == Found(Remembered(s, past, e)) && found.value.dest == e.dest
  {
    hide LegalRun, Play, Undisturbed, Legal;
    var v := Remembered(s, past, e);
    var upto := past + [e] + between;
    var p := Publish(e.sock, key, true);
    var events := upto + [p] + rest;
    LegalSplit(s, upto + [p], rest);
    LegalSplit(s, upto, [p]);
    LegalSplit(s, past + [e], between);
    StaysCaptured(s, past, e, between);
    StorageIsCaptured(s, upto, e.sock);
    PlayAppend(s, upto + [p], rest);
    BeginningInv(s);
    RunTables(s, upto + [p]);
    PlayLast(s, upto + [p]);
    assert (upto + [p])[..|upto|] == upto;
    MapsFollow(s, events);
    UndisturbedResolves(Play(s, upto + [p]), rest, e.sock, key, v, i);
  }

  lemma {:induction false} StaysCaptured(s: State, past: seq<Event>, e: Event, between: seq<Event>)
    requires s.policy.heartbeat <= s.now && Captures(s, past, e)
    requires forall d :: d in between ==> !(d.Connect? && d.sock == e.sock)
    ensures LastCaptured(s, past + [e] + between, e.sock) == Some(Remembered(s, past, e))
    decreases |between|
  {
    hide Captures;
    var events := past + [e] + between;
    var n := |events| - 1;
    if between == [] {
      assert events[..n] == past && events[n] == e;
    } else {
      var m := |between| - 1;
      assert events[..n] == past + [e] + between[..m] && events[n] == between[m];
      assert between[m] in between;
      if !events[n].Connect? { NoOtherCaptures(s, events[..n], events[n]); }
      assert forall d :: d in between[..m] ==> d in between;
      StaysCaptured(s, past, e, between[..m]);
    }
  }

  lemma {:induction false} RunTables(s: State, events: seq<Event>)
    requires Tables(s) && LegalRun(s, events)
    ensures Tables(Play(s, events))
    decreases |events|
  {
    hide Tables, Legal, Step;
    if events != [] {
      StepTables(s, events[0]);
      RunTables(Step(s, events[0]), events[1..]);
    }
  }
}
