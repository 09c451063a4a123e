/** The tables the hooks and the daemon share, updated in place: the connect and
    socket hooks of redirect.bpf.c and the daemon's `Resolve` and `Sweep`. */
module FlowControl {
  import opened Text
  import opened Flows

  /** What `Resolve` and everybody else do while it runs, sleep by sleep. */
  function ResolveTrace(s: State, i: nat, sleeps: seq<seq<Event>>): seq<Event>
    decreases |sleeps|
  {
    if sleeps == [] || i >= |s.conns| then []
    else
      var looked := LookupFlow(s, i);
      match looked.conns[i].attempt
      case Found(_) => [Lookup(i), Erase(s.conns[i].key)]
      case Refused => [Lookup(i)]
      case Trying(_) => [Lookup(i)] + (sleeps[0] + ResolveTrace(Play(looked, sleeps[0]), i, sleeps[1..]))
  }

  lemma {:induction false} OthersLeaveConn(s: State, events: seq<Event>, i: nat)
    requires i < |s.conns| && Lookup(i) !in events
    ensures i < |Play(s, events).conns| && Play(s, events).conns[i] == s.conns[i]
    decreases |events|
  {
    if events != [] {
      assert events[0] in events && forall e :: e in events[1..] ==> e in events;
      OthersLeaveConn(Step(s, events[0]), events[1..], i);
    }
  }

  lemma TraceNext(s: State, i: nat, sleeps: seq<seq<Event>>)
    requires i < |s.conns| && sleeps != []
    ensures var end := Play(s, ResolveTrace(s, i, sleeps));
      var looked := LookupFlow(s, i);
      match looked.conns[i].attempt
      case Refused => end == looked
      case Found(_) => end == looked.(flow := looked.flow - {s.conns[i].key})
      case Trying(_) =>
        var later := Play(looked, sleeps[0]);
        end == Play(later, ResolveTrace(later, i, sleeps[1..]))
  {
    var looked := LookupFlow(s, i);
    var key := s.conns[i].key;
    assert Play(s, [Lookup(i)]) == looked by { assert [Lookup(i)][1..] == []; }
    if looked.conns[i].attempt.Found? {
      assert [Lookup(i), Erase(key)][1..] == [Erase(key)] && [Erase(key)][1..] == [];
      assert Play(looked, [Erase(key)]) == looked.(flow := looked.flow - {key});
    } else if looked.conns[i].attempt.Trying? {
      var later := Play(looked, sleeps[0]);
      var rest := ResolveTrace(later, i, sleeps[1..]);
      PlayAppend(s, [Lookup(i)], sleeps[0] + rest);
      PlayAppend(looked, sleeps[0], rest);
    }
  }

  lemma LookupCounts(s: State, i: nat)
    requires i < |s.conns| && s.conns[i].attempt.Trying?
    ensures var looked := LookupFlow(s, i);
      && |looked.conns| == |s.conns| && looked.conns[i] == s.conns[i].(attempt := looked.conns[i].attempt)
      && (looked.conns[i].attempt.Trying? ==>
           looked.conns[i].attempt.lookups == s.conns[i].attempt.lookups + 1 < LOOKUPS)
  {
  }

  /** The state that the k-th further lookup of connection i meets. */
  function AtLookup(s: State, i: nat, sleeps: seq<seq<Event>>, k: nat): State
    requires k <= |sleeps|
    decreases k
  {
    if k == 0 then s else AtLookup(Play(LookupFlow(s, i), sleeps[0]), i, sleeps[1..], k - 1)
  }

  predicate Misses(s: State, i: nat, sleeps: seq<seq<Event>>, k: nat)
    requires i < |s.conns| && k <= |sleeps|
  {
    s.conns[i].key !in AtLookup(s, i, sleeps, k).flow
  }

  /** The connection still has lookups, one sleep for each. */
  predicate Waiting(s: State, i: nat, sleeps: seq<seq<Event>>) {
    && i < |s.conns| && s.conns[i].attempt.Trying? && s.conns[i].attempt.lookups < LOOKUPS
    && |sleeps| == LOOKUPS - s.conns[i].attempt.lookups && forall k :: 0 <= k < |sleeps| ==> Lookup(i) !in sleeps[k]
  }

  lemma SleepOn(s: State, i: nat, sleeps: seq<seq<Event>>)
    requires Waiting(s, i, sleeps) && s.conns[i].key !in s.flow && |sleeps| > 1
    ensures var later := Play(LookupFlow(s, i), sleeps[0]);
      && Waiting(later, i, sleeps[1..]) && later.conns[i].key == s.conns[i].key
      && Play(s, ResolveTrace(s, i, sleeps)) == Play(later, ResolveTrace(later, i, sleeps[1..]))
      && forall k :: 1 <= k <= |sleeps| ==> AtLookup(s, i, sleeps, k) == AtLookup(later, i, sleeps[1..], k - 1)
  {
    hide Play, ResolveTrace;
    LookupCounts(s, i);
    TraceNext(s, i, sleeps);
    OthersLeaveConn(LookupFlow(s, i), sleeps[0], i);
    assert forall k :: 0 <= k < |sleeps[1..]| ==> sleeps[1..][k] == sleeps[k + 1];
  }

  /** An entry that arrives during one of the sleeps is found by the next lookup:
      the first lookup that meets an entry decides. */
  lemma {:induction false} ResolveWaits(s: State, i: nat, sleeps: seq<seq<Event>>, k: nat)
    requires Waiting(s, i, sleeps) && k < |sleeps|
    requires (forall j :: 0 <= j < k ==> Misses(s, i, sleeps, j)) && !Misses(s, i, sleeps, k)
    ensures var met, end := AtLookup(s, i, sleeps, k), Play(s, ResolveTrace(s, i, sleeps));
      var v := met.flow[s.conns[i].key];
      i < |end.conns| && end.conns[i].attempt == if Usable(met, s.conns[i].key, v) then Found(v) else Refused
    decreases k
  {
    hide Play, ResolveTrace, Usable;
    if k == 0 {
      TraceNext(s, i, sleeps);
    } else {
      assert Misses(s, i, sleeps, 0);
      SleepOn(s, i, sleeps);
      var later := Play(LookupFlow(s, i), sleeps[0]);
      forall j | 0 <= j < k - 1 ensures Misses(later, i, sleeps[1..], j) { assert Misses(s, i, sleeps, j + 1); }
      ResolveWaits(later, i, sleeps[1..], k - 1);
    }
  }

  /** It gives up only when all of its lookups miss. */
  lemma {:induction false} ResolveGivesUp(s: State, i: nat, sleeps: seq<seq<Event>>)
    requires Waiting(s, i, sleeps) && forall j :: 0 <= j < |sleeps| ==> Misses(s, i, sleeps, j)
    ensures var end := Play(s, ResolveTrace(s, i, sleeps));
      i < |end.conns| && end.conns[i].attempt == Refused
    decreases |sleeps|
  {
    hide Play, ResolveTrace, Usable;
    assert Misses(s, i, sleeps, 0);
    if |sleeps| == 1 {
      TraceNext(s, i, sleeps);
    } else {
      SleepOn(s, i, sleeps);
      var later := Play(LookupFlow(s, i), sleeps[0]);
      forall j | 0 <= j < |sleeps| - 1 ensures Misses(later, i, sleeps[1..], j) { assert Misses(s, i, sleeps, j + 1); }
      ResolveGivesUp(later, i, sleeps[1..]);
    }
  }

  class FlowTables {
    var now: nat
    var policy: Policy
    var bypassUids: set<nat>
    var targetUids: set<nat>
    var storage: map<nat, Value>
    var tuples: map<nat, Key>
    var live: set<nat>
    var flow: map<Key, Value>
    var conns: seq<Conn>
    ghost var asked: map<nat, Dest>

    ghost function View(): State
      reads this
    {
      State(now, policy, bypassUids, targetUids, storage, tuples, live, flow, conns, asked)
    }

    /** `redirect` in redirect.bpf.c */
    method OnConnect(sock: nat, uid: nat, tcp: bool, dest: Dest, exempt: bool, room: bool) returns (redirected: bool)
      modifies this
      ensures View() == ConnectHook(old(View()), sock, uid, tcp, dest, exempt, room)
      ensures redirected == Redirects(old(View()), sock, uid, tcp, dest, exempt, room)
    {
      if !tcp {
        return false;
      }
      if uid in bypassUids {
        return false;
      }
      if policy.version != ABI_VERSION || !policy.enabled || Elapsed(now, policy.heartbeat) > policy.lease
         || (dest.family == AF_INET6 && !policy.ipv6) {
        return false;
      }
      if !policy.allUids && uid !in targetUids {
        return false;
      }
      if exempt {
        return false;
      }
      if sock == 0 || !room {
        return false;
      }
      storage := storage[sock := Value(ABI_VERSION, dest, uid, sock, now)];
      asked := asked[sock := dest];
      redirected := true;
    }

    /** `ep_sockops` on BPF_SOCK_OPS_TCP_CONNECT_CB */
    method OnEstablish(sock: nat, key: Key, room: bool)
      modifies this
      ensures View() == PublishFlow(old(View()), sock, key, room)
    {
      tuples := tuples[sock := key];
      live := live + {sock};
      if key.family != AF_INET && key.family != AF_INET6 {
        return;
      }
      if sock !in storage {
        return;
      }
      if room {
        flow := flow[key := storage[sock]];
      }
    }

    /** `ep_sockops` on BPF_SOCK_OPS_STATE_CB into TCP_CLOSE */
    method OnClose(sock: nat)
      modifies this
      ensures View() == CloseFlow(old(View()), sock)
    {
      if sock !in tuples {
        return;
      }
      var key := tuples[sock];
      tuples := tuples - {sock};
      live := live - {sock};
      if sock in storage && key in flow && flow[key].cookie == storage[sock].cookie {
        flow := flow - {key};
      }
    }

    /** Anything the other parties do meanwhile. */
    method Others(events: seq<Event>)
      modifies this
      ensures View() == Play(old(View()), events)
    {
      ghost var s := View();
      var i := 0;
      assert events[0..] == events;
      while i < |events|
        invariant 0 <= i <= |events|
        invariant Play(s, events) == Play(View(), events[i..])
      {
        assert events[i..][0] == events[i] && events[i..][1..] == events[i + 1..];
        ghost var before := View();
        match events[i] {
          case Connect(sock, uid, tcp, dest, exempt, room) => var redirected := OnConnect(sock, uid, tcp, dest, exempt, room);
          case Publish(sock, key, room) => OnEstablish(sock, key, room);
          case Close(sock) => OnClose(sock);
          case Accept(sock) =>
            if sock in tuples {
              var dest := if sock in storage then Some(storage[sock].dest) else None;
              conns := conns + [Conn(tuples[sock], sock, dest, Trying(0))];
            }
          case Lookup(conn) => LookupOnce(conn);
          case Release(sock) => live := live - {sock};
          case Erase(key) => flow := flow - {key};
          case Sweep(key, seen) => SweepEntry(key, seen);
          case SetEnabled(on) => policy := policy.(enabled := on, heartbeat := now);
          case Heartbeat => policy := policy.(heartbeat := now);
          case Target(uid, present) => targetUids := if present then targetUids + {uid} else targetUids - {uid};
          case Wait(ns) => now := now + ns;
        }
        assert View() == Step(before, events[i]);
        i := i + 1;
      }
    }

    method LookupOnce(i: nat)
      modifies this
      ensures View() == LookupFlow(old(View()), i)
    {
      if i < |conns| && conns[i].attempt.Trying? {
        var c := conns[i];
        var lookups := c.attempt.lookups;
        var usable := c.key in flow && flow[c.key].version == ABI_VERSION && flow[c.key].cookie != 0
          && flow[c.key].dest.family == c.key.family && Elapsed(now, flow[c.key].created) <= RESOLVE_NS;
        var attempt := if c.key in flow then (if usable then Found(flow[c.key]) else Refused)
          else if lookups + 1 >= LOOKUPS then Refused else Trying(lookups + 1);
        conns := conns[i := c.(attempt := attempt)];
      }
    }

    /** `Resolve`: up to ten lookups, the others going on during each sleep. */
    method Resolve(i: nat, sleeps: seq<seq<Event>>) returns (result: Attempt)
      requires i < |conns| && conns[i].attempt == Trying(0)
      requires |sleeps| == LOOKUPS && forall k :: 0 <= k < LOOKUPS ==> Lookup(i) !in sleeps[k]
      modifies this
      ensures View() == Play(old(View()), ResolveTrace(old(View()), i, sleeps))
      ensures !result.Trying? && i < |conns| && conns[i] == old(conns[i]).(attempt := result)
    {
      hide Play, ResolveTrace, LookupFlow;
      ghost var end := Play(View(), ResolveTrace(View(), i, sleeps));
      var n := 0;
      assert sleeps[0..] == sleeps;
      while true
        invariant 0 <= n < LOOKUPS && i < |conns| && conns[i] == old(conns[i]).(attempt := Trying(n))
        invariant end == Play(View(), ResolveTrace(View(), i, sleeps[n..]))
        decreases LOOKUPS - n
      {
        ghost var before := View();
        var key := conns[i].key;
        TraceNext(before, i, sleeps[n..]);
        LookupCounts(before, i);
        LookupOnce(i);
        result := conns[i].attempt;
        if result.Refused? {
          return;
        }
        if result.Found? {
          flow := flow - {key};
          return;
        }
        OthersLeaveConn(View(), sleeps[n], i);
        Others(sleeps[n]);
        assert sleeps[n..][0] == sleeps[n] && sleeps[n..][1..] == sleeps[n + 1..];
        n := n + 1;
      }
    }

    /** The body of `Sweep`'s loop, on what the iteration returned. */
    method SweepEntry(key: Key, seen: Value)
      modifies this`flow
      ensures View() == SweepFlow(old(View()), key, seen)
    {
      if Elapsed(now, seen.created) > SWEEP_NS {
        if key in flow {
          var current := flow[key];
          if current.cookie == seen.cookie {
            flow := flow - {key};
          }
        }
      }
    }

    /** `Sweep`: an iteration over the keys, the others going on between reading an
        entry and looking at it again. */
    method SweepFlows(keys: seq<Key>, pauses: seq<seq<Event>>)
      requires |pauses| == |keys|
      modifies this
      ensures View() == Play(old(View()), SweepTrace(old(View()), keys, pauses))
    {
      hide Play, SweepTrace, SweepFlow;
      var i := 0;
      ghost var end := Play(View(), SweepTrace(View(), keys, pauses));
      assert keys[0..] == keys && pauses[0..] == pauses;
      while i < |keys|
        invariant 0 <= i <= |keys|
        invariant end == Play(View(), SweepTrace(View(), keys[i..], pauses[i..]))
      {
        assert keys[i..][0] == keys[i] && keys[i..][1..] == keys[i + 1..];
        assert pauses[i..][0] == pauses[i] && pauses[i..][1..] == pauses[i + 1..];
        SweepNext(View(), keys[i..], pauses[i..]);
        if keys[i] in flow {
          var seen := flow[keys[i]];
          Others(pauses[i]);
          SweepEntry(keys[i], seen);
        }
        i := i + 1;
      }
      SweepEnd(View(), keys[i..], pauses[i..]);
    }
  }

  /** What a sweep and everybody else do while it runs. */
  function SweepTrace(s: State, keys: seq<Key>, pauses: seq<seq<Event>>): seq<Event>
    requires |pauses| == |keys|
    decreases |keys|
  {
    if keys == [] then []
    else if keys[0] !in s.flow then SweepTrace(s, keys[1..], pauses[1..])
    else
      var mine := pauses[0] + [Event.Sweep(keys[0], s.flow[keys[0]])];
      mine + SweepTrace(Play(s, mine), keys[1..], pauses[1..])
  }

  lemma SweepNext(s: State, keys: seq<Key>, pauses: seq<seq<Event>>)
    requires |pauses| == |keys| > 0
    ensures var end := Play(s, SweepTrace(s, keys, pauses));
      if keys[0] !in s.flow then end == Play(s, SweepTrace(s, keys[1..], pauses[1..]))
      else
        var next := SweepFlow(Play(s, pauses[0]), keys[0], s.flow[keys[0]]);
        end == Play(next, SweepTrace(next, keys[1..], pauses[1..]))
  {
    if keys[0] in s.flow {
      var e := Event.Sweep(keys[0], s.flow[keys[0]]);
      PlayAppend(s, pauses[0], [e]);
      assert [e][1..] == [];
      assert Play(Play(s, pauses[0]), [e]) == SweepFlow(Play(s, pauses[0]), keys[0], s.flow[keys[0]]);
      var mine := pauses[0] + [e];
      PlayAppend(s, mine, SweepTrace(Play(s, mine), keys[1..], pauses[1..]));
    }
  }

  lemma SweepEnd(s: State, keys: seq<Key>, pauses: seq<seq<Event>>)
    requires keys == [] && pauses == []
    ensures Play(s, SweepTrace(s, keys, pauses)) == s
  {
  }

  predicate Quiet(pauses: seq<seq<Event>>) {
    forall k :: 0 <= k < |pauses| ==> pauses[k] == []
  }

  /** Where nobody interferes a sweep over all keys removes exactly the entries
      older than 60 s. */
  lemma {:induction false} QuietSweepExact(s: State, keys: seq<Key>, pauses: seq<seq<Event>>)
    requires |pauses| == |keys| && Quiet(pauses)
    ensures var next := Play(s, SweepTrace(s, keys, pauses));
      && next == s.(flow := next.flow)
      && (forall k :: k in next.flow ==> k in s.flow && next.flow[k] == s.flow[k])
      && forall k :: k in s.flow ==> (k in next.flow <==> k !in keys || Elapsed(s.now, s.flow[k].created) <= SWEEP_NS)
    decreases |keys|
  {
    hide Play, SweepTrace;
    if keys == [] {
      SweepEnd(s, keys, pauses);
    } else {
      SweepNext(s, keys, pauses);
      assert Quiet(pauses[1..]) by { assert forall k :: 0 <= k < |pauses[1..]| ==> pauses[1..][k] == pauses[k + 1]; }
      PlayNothing(s);
      assert forall k :: k in keys <==> k == keys[0] || k in keys[1..];
      var next := if keys[0] in s.flow then SweepFlow(s, keys[0], s.flow[keys[0]]) else s;
      QuietSweepExact(next, keys[1..], pauses[1..]);
    }
  }

  lemma PlayNothing(s: State)
    ensures Play(s, []) == s
  {
  }
}
