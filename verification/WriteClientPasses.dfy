// A replay pass of the client object is a run of the write path: one replay after the other,
// up to the first that fails.
module WriteClientPasses {
  import opened IdempotencyServer
  import opened WritePath
  import opened WritePathTrace
  import opened WritePathOutbox
  import opened WritePathRuns
  import opened ExactlyOnce
  import opened WriteClientRuns
  import opened WriteClientNetworks
  import C = WriteClient

  /** What the network does during one attempt, and a key nobody has minted. */
  datatype Net = Net(first: Meanwhile, second: Meanwhile, spare: string)

  /** The attempt reached the network, with an item of none of the endpoints that are never queued. */
  predicate Reaches(a: C.Attempt) {
    1 <= |a.done| <= 2 && a.id in a.before && a.before[a.id].path !in C.UNQUEUED
  }

  predicate AllReach(tries: seq<C.Attempt>) {
    forall a :: a in tries ==> Reaches(a)
  }

  lemma AllButLast(tries: seq<C.Attempt>)
    requires AllReach(tries) && tries != []
    ensures AllReach(tries[..|tries| - 1]) && Reaches(tries[|tries| - 1])
  {
    assert tries[|tries| - 1] in tries;
  }

  /** The events of a pass: each attempt's, from the state the ones before it left. */
  ghost function PassEvents(retention: int, s: System, tries: seq<C.Attempt>, nets: seq<Net>): seq<Event>
    requires AllReach(tries) && |nets| == |tries|
  {
    if tries == [] then []
    else
      var n := |tries| - 1;
      AllButLast(tries);
      var events := PassEvents(retention, s, tries[..n], nets[..n]);
      events + TryEvents(Run(retention, s, events), tries[n], nets[n].first, nets[n].second, nets[n].spare)
  }

  /** In state s the network answers the replay as it answered the attempt. */
  ghost predicate TryAgrees(retention: int, s: System, a: C.Attempt, net: Net)
    requires Reaches(a)
  {
    && a.id in s.outbox && net.spare !in s.owner
    && Agrees(retention, Replayed(s, a.id), s.next, a.done, net.first, net.second, net.spare)
  }

  ghost predicate PassAgrees(retention: int, s: System, tries: seq<C.Attempt>, nets: seq<Net>)
    requires AllReach(tries) && |nets| == |tries|
  {
    tries == []
    || (var n := |tries| - 1;
        AllButLast(tries);
        && PassAgrees(retention, s, tries[..n], nets[..n])
        && TryAgrees(retention, Run(retention, s, PassEvents(retention, s, tries[..n], nets[..n])), tries[n], nets[n]))
  }

  /** What a pass has left: after the attempts that returned the write path's outbox is the
      store, and after a failed last one it is so up to the id of the copy. */
  ghost predicate PassLeaves(s: System, t: System, tries: seq<C.Attempt>, after: map<nat, C.Item>, encode: Encoding) {
    && t.calls == s.calls && s.seen <= t.seen && t.next >= s.next
    && (forall a :: a in tries && a.out == C.Returned ==> a.id in a.before && SeenKey(t.seen, a.before[a.id].key))
    && (C.AllReturned(tries) ==> t.outbox == OutboxOf(after, encode))
    && (!C.AllReturned(tries) ==>
          var a := tries[|tries| - 1];
          a.id in a.before
          && ReplayLeaves(OutboxOf(a.before, encode), OutboxOf(after, encode), a.id, a.unused, a.out)
          && exists n :: n >= s.next && ReplayLeaves(OutboxOf(a.before, encode), t.outbox, a.id, n, a.out))
  }

  lemma SeenStays(seen: set<ClaimKey>, more: set<ClaimKey>, key: string)
    requires SeenKey(seen, key) && seen <= more
    ensures SeenKey(more, key)
  {
  }

  lemma PassExtends(s: System, mid: System, t: System, tries: seq<C.Attempt>, after: map<nat, C.Item>,
                    encode: Encoding, m: nat)
    requires tries != []
    requires var n := |tries| - 1;
             var a := tries[n];
             && C.AllReturned(tries[..n]) && PassLeaves(s, mid, tries[..n], a.before, encode)
             && t.calls == mid.calls && mid.seen <= t.seen && s.next <= mid.next <= t.next
             && a.id in a.before && a.after == after
             && (a.out == C.Returned ==> SeenKey(t.seen, a.before[a.id].key))
             && m >= mid.next && ReplayLeaves(mid.outbox, OutboxOf(after, encode), a.id, a.unused, a.out)
             && ReplayLeaves(mid.outbox, t.outbox, a.id, m, a.out)
    ensures PassLeaves(s, t, tries, after, encode)
  {
    hide SeenKey, OutboxOf;
    var n := |tries| - 1;
    forall a | a in tries && a.out == C.Returned
      ensures a.id in a.before && SeenKey(t.seen, a.before[a.id].key)
    {
      if a != tries[n] {
        assert a in tries[..n];
        SeenStays(mid.seen, t.seen, a.before[a.id].key);
      }
    }
    assert C.AllReturned(tries) <==> tries[n].out == C.Returned by {
      assert tries[n] in tries;
      assert forall a :: a in tries ==> a == tries[n] || a in tries[..n];
    }
  }

  lemma {:induction false} RunNext(retention: int, s: System, events: seq<Event>)
    ensures Run(retention, s, events).next >= s.next
  {
    hide Happens;
    if events != [] {
      var n := |events| - 1;
      RunNext(retention, s, events[..n]);
      HappensNext(retention, Run(retention, s, events[..n]), events[n]);
    }
  }

  lemma HappensNext(retention: int, s: System, e: Event)
    ensures Happens(retention, s, e).next >= s.next
  {
    if Possible(retention, s, e) {
      if Quiet(e) {
        hide Do, Possible;
        QuietFrame(retention, s, e);
      } else {
        hide Apply, Enabled, Keys, UsedId;
      }
    }
  }

  lemma ItemKept(store: map<nat, C.Item>, id: nat, encode: Encoding)
    requires id in store
    ensures id in OutboxOf(store, encode) && OutboxOf(store, encode)[id].key == store[id].key
  {
  }

  lemma NoPassLeaves(s: System, before: map<nat, C.Item>, encode: Encoding)
    requires s.outbox == OutboxOf(before, encode)
    ensures PassLeaves(s, s, [], before, encode)
  {
  }

  /** retryAll is a run of the write path.  Every item it deletes was seen answered with success,
      and the outbox it leaves is the one that run leaves. */
  lemma {:induction false} PassIsRun(retention: int, s: System, tries: seq<C.Attempt>, before: map<nat, C.Item>,
                                     after: map<nat, C.Item>, keys: nat -> string, hasTenant: bool,
                                     encode: Encoding, nets: seq<Net>)
    requires SystemInv(retention, s) && s.outbox == OutboxOf(before, encode)
    requires C.Pass(keys, hasTenant, tries, before, after) && AllReach(tries) && |nets| == |tries|
    requires PassAgrees(retention, s, tries, nets)
    ensures var t := Run(retention, s, PassEvents(retention, s, tries, nets));
            SystemInv(retention, t) && PassLeaves(s, t, tries, after, encode)
  {
    hide Run, SystemInv, TryAgrees, TryEvents, PassLeaves, C.Retried, OutboxOf;
    if tries == [] {
      NoEvents(retention, s);
      NoPassLeaves(s, before, encode);
    } else {
      var n := |tries| - 1;
      AllButLast(tries);
      PassIsRun(retention, s, tries[..n], before, tries[n].before, keys, hasTenant, encode, nets[..n]);
      var events := PassEvents(retention, s, tries[..n], nets[..n]);
      var mid := Run(retention, s, events);
      RunNext(retention, s, events);
      TryExtends(retention, s, mid, tries, keys, hasTenant, encode, nets[n]);
      RunConcat(retention, s, events, TryEvents(mid, tries[n], nets[n].first, nets[n].second, nets[n].spare));
    }
  }

  /** One more attempt, after attempts that all returned. */
  lemma TryExtends(retention: int, s: System, mid: System, tries: seq<C.Attempt>, keys: nat -> string,
                   hasTenant: bool, encode: Encoding, net: Net)
    requires SystemInv(retention, mid) && tries != [] && AllReach(tries) && s.next <= mid.next
    requires var a := tries[|tries| - 1];
             && Reaches(a) && C.AllReturned(tries[..|tries| - 1]) && C.Retried(keys, hasTenant, a)
             && PassLeaves(s, mid, tries[..|tries| - 1], a.before, encode) && TryAgrees(retention, mid, a, net)
    ensures var a := tries[|tries| - 1];
            var t := Run(retention, mid, TryEvents(mid, a, net.first, net.second, net.spare));
            SystemInv(retention, t) && PassLeaves(s, t, tries, a.after, encode)
  {
    hide Run, SystemInv, Agrees, TryEvents, SeenKey, ReplayLeaves, C.Retried, OutboxOf, PassLeaves;
    var a := tries[|tries| - 1];
    LeavesStore(s, mid, tries[..|tries| - 1], a.before, encode);
    RetryIsRun(retention, mid, a, keys, hasTenant, encode, net.first, net.second, net.spare);
    var more := TryEvents(mid, a, net.first, net.second, net.spare);
    var t := Run(retention, mid, more);
    RunNext(retention, mid, more);
    ItemKept(a.before, a.id, encode);
    var m :| m >= mid.next && ReplayLeaves(mid.outbox, t.outbox, a.id, m, a.out);
    PassExtends(s, mid, t, tries, a.after, encode, m);
  }

  lemma LeavesStore(s: System, t: System, tries: seq<C.Attempt>, after: map<nat, C.Item>, encode: Encoding)
    requires PassLeaves(s, t, tries, after, encode) && C.AllReturned(tries)
    ensures t.outbox == OutboxOf(after, encode)
  {
  }

  /** Such a network exists attempt by attempt: wherever the pass has got to, there is one for the
      next attempt if the server's tables then allow its last reply. */
  lemma NextTryHasNetwork(retention: int, s: System, tries: seq<C.Attempt>, nets: seq<Net>, keys: nat -> string,
                          hasTenant: bool, spare: string) returns (net: Net)
    requires SystemInv(retention, s) && tries != [] && AllReach(tries) && AllReach(tries[..|tries| - 1])
    requires |nets| == |tries| - 1 && PassAgrees(retention, s, tries[..|tries| - 1], nets)
    requires Reaches(tries[|tries| - 1]) && C.Retried(keys, hasTenant, tries[|tries| - 1])
    requires var mid := Run(retention, s, PassEvents(retention, s, tries[..|tries| - 1], nets));
             var a := tries[|tries| - 1];
             && a.id in mid.outbox && spare !in mid.owner
             && Answerable(retention, mid.server,
                           Request(mid.tenant, mid.actor, mid.outbox[a.id].key, mid.outbox[a.id].write),
                           C.Last(a.done).reply)
    ensures PassAgrees(retention, s, tries, nets + [net])
  {
    hide Run, SystemInv, Agrees, Answerable, C.Retried, C.Requested;
    var a := tries[|tries| - 1];
    var events := PassEvents(retention, s, tries[..|tries| - 1], nets);
    var mid := Run(retention, s, events);
    RunKeepsInv(retention, s, events);
    TriedShape(a, keys, hasTenant);
    var first, second := RetryHasNetwork(retention, mid, a.id, a.done, spare);
    net := Net(first, second, spare);
    assert (nets + [net])[..|tries| - 1] == nets;
  }

  lemma TriedShape(a: C.Attempt, keys: nat -> string, hasTenant: bool)
    requires Reaches(a) && C.Retried(keys, hasTenant, a)
    ensures |a.done| == 2 ==> a.done[0].reply == C.Response(401)
  {
    hide C.Requested;
    C.QueuedItem(a.before, a.unused, a.started, a.id);
    ReplayShape(a.before[a.id], keys, a.minted, a.minted', a.hadToken, a.done, a.out);
  }
}
