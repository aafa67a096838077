// Runs of the write path, event by event: a response that gets lost, the same write executed
// again under another tenant, and a late put-back of an item that was settled and deleted.
module WritePathRuns {
  import opened Prelude
  import opened IdempotencyServer
  import opened IdempotencySession
  import opened WritePath
  import opened ExactlyOnce

  // ----- Runs in pieces -----

  lemma RunPush(retention: int, s: System, events: seq<Event>, e: Event)
    ensures Run(retention, s, events + [e]) == Happens(retention, Run(retention, s, events), e)
  {
    assert (events + [e])[..|events|] == events;
  }

  lemma {:induction false} RunConcat(retention: int, s: System, a: seq<Event>, b: seq<Event>)
    ensures Run(retention, s, a + b) == Run(retention, Run(retention, s, a), b)
  {
    if b == [] {
      assert a + b == a;
    } else {
      var n := |b| - 1;
      RunConcat(retention, s, a, b[..n]);
      RunPush(retention, s, a + b[..n], b[n]);
      assert a + b == a + b[..n] + [b[n]];
    }
  }

  lemma ReceiveHappens(retention: int, s: System, c: nat, answer: nat, canRefresh: bool)
    requires IsWaiting(s, c) && answer < |s.server.answers| && s.server.answers[answer].id == s.calls[c].phase.msg
    ensures Happens(retention, s, Receive(c, answer, canRefresh))
            == Received(s, c, s.server.answers[answer], canRefresh)
  {
    hide Received, Enabled, Apply, Keys, UsedId;
  }

  lemma SettleHappens(retention: int, s: System, c: nat)
    requires c in s.calls && (s.calls[c].phase.PuttingBack? || s.calls[c].phase.Deleting?)
    ensures Happens(retention, s, Settle(c)) == Settled(s, c)
  {
    hide Settled, Enabled, Apply, Keys, UsedId;
  }

  // ----- Serving one request while no other is open -----

  function ServedAlone(retention: int, s: Server, m: nat, req: Request, response: string): Server {
    Server(s.now, ClaimsWith(retention, s.claims, req, s.now),
           if req.write.recorded then s.records[ScopeOf(req) := Record(req.write.hash, Some(response))] else s.records,
           map[], s.effects + [Effect(m, req, s.now, s.now, response)],
           s.answers + [Answer(m, req, Success, response)])
  }

  /** The claim of a guarded request that is alone and finds its key free. */
  lemma ClaimFree(retention: int, s: Server, m: nat, req: Request)
    requires s.txs == map[] && !UsedId(s, m) && req.write.guarded && !Taken(retention, s.claims, req, s.now)
    ensures var begun := Next(retention, s, Begin(m, req));
            var stale := StaleOf(retention, s.claims, req.tenant, s.now);
            Next(retention, Next(retention, Next(retention, begun, Purge(m)), CheckClaim(m)), InsertClaim(m))
              == Update(s, m, Tx(req, s.now, Phase.Claimed, stale, s.now, Some(s.now), false, ""))
  {
    var begun := Update(s, m, Tx(req, s.now, Begun, {}, s.now, None, false, ""));
    assert Next(retention, s, Begin(m, req)) == begun;
    hide UsedId, Next;
    PurgeAlone(retention, begun, m);
    var stale := StaleOf(retention, s.claims, req.tenant, s.now);
    var purged := Update(begun, m, begun.txs[m].(phase := Purged, purged := stale, purgedAt := s.now));
    ClaimAlone(retention, purged, m);
  }

  /** Its record and its effect, once it holds the claim. */
  lemma ExecuteFree(retention: int, s: Server, m: nat, req: Request, stale: set<ClaimKey>, response: string)
    requires s.txs == map[] && req.write.guarded && stale == StaleOf(retention, s.claims, req.tenant, s.now)
    requires req.write.recorded ==> ScopeOf(req) !in s.records
    ensures var claimed := Update(s, m, Tx(req, s.now, Phase.Claimed, stale, s.now, Some(s.now), false, ""));
            var ready := Next(retention, Next(retention, claimed, Start(m)), InsertRecord(m));
            Next(retention, Next(retention, ready, Execute(m, response)), Step.Commit(m))
              == ServedAlone(retention, s, m, req, response)
  {
    hide Next, UsedId, Taken, ServedAlone, StaleOf, Publish;
    var claimed := Update(s, m, Tx(req, s.now, Phase.Claimed, stale, s.now, Some(s.now), false, ""));
    RecordAlone(retention, claimed, m);
    if !req.write.recorded { RecordFree(retention, claimed, m); }
    var ready := Update(claimed, m, claimed.txs[m].(phase := Ready, holdsRecord := req.write.recorded));
    assert Next(retention, Next(retention, claimed, Start(m)), InsertRecord(m)) == ready;
    CommitAlone(retention, ready, m, response);
    PublishAlone(retention, s, m, ready.txs[m].(phase := Done, response := response));
    assert ready.(txs := map[m := ready.txs[m].(phase := Done, response := response)])
        == s.(txs := map[m := ready.txs[m].(phase := Done, response := response)]);
  }

  /** Without a record to keep, the second statement of the record does nothing. */
  lemma RecordFree(retention: int, s: Server, m: nat)
    requires Alone(s, m, Phase.Claimed) && !s.txs[m].req.write.recorded && !s.txs[m].holdsRecord
    ensures var ready := Update(s, m, s.txs[m].(phase := Ready));
            Next(retention, ready, InsertRecord(m)) == ready
  {
  }

  lemma CommitAlone(retention: int, s: Server, m: nat, response: string)
    requires Alone(s, m, Ready)
    ensures Next(retention, Next(retention, s, Execute(m, response)), Step.Commit(m))
              == Publish(s.(txs := map[m := s.txs[m].(phase := Done, response := response)]), m)
  {
    hide Publish;
    var done := s.txs[m].(phase := Done, response := response);
    assert s.txs[m := done] == map[m := done];
  }

  lemma PublishAlone(retention: int, s: Server, m: nat, t: Tx)
    requires s.txs == map[] && t.req.write.guarded && t.purged == StaleOf(retention, s.claims, t.req.tenant, s.now)
    requires t.started == s.now && t.claimedAt == Some(s.now) && (t.holdsRecord <==> t.req.write.recorded)
    ensures Publish(s.(txs := map[m := t]), m) == ServedAlone(retention, s, m, t.req, t.response)
  {
    hide StaleOf;
    assert map[m := t] - {m} == s.txs;
  }

  function ServeEvents(m: nat, response: string): seq<Event> {
    [Deliver(m)] + [ServerDoes(Purge(m))] + [ServerDoes(CheckClaim(m))] + [ServerDoes(InsertClaim(m))]
    + [ServerDoes(Start(m))] + [ServerDoes(InsertRecord(m))] + [ServerDoes(Execute(m, response))]
    + [ServerDoes(Step.Commit(m))]
  }

  lemma ServerEvent(retention: int, s: System, a: Step)
    requires !a.Begin? && !a.Reject?
    ensures Happens(retention, s, ServerDoes(a)) == s.(server := Next(retention, s.server, a))
  {
    hide Apply, Enabled;
  }

  lemma DeliverEvent(retention: int, s: System, m: nat)
    requires m in s.inbox && !UsedId(s.server, m)
    ensures Happens(retention, s, Deliver(m))
              == s.(inbox := s.inbox - {m}, server := Next(retention, s.server, Begin(m, s.inbox[m])))
  {
    hide UsedId;
  }

  lemma ServerPush(retention: int, s: System, events: seq<Event>, a: Step)
    requires !a.Begin? && !a.Reject?
    ensures var t := Run(retention, s, events);
            Run(retention, s, events + [ServerDoes(a)]) == t.(server := Next(retention, t.server, a))
  {
    RunPush(retention, s, events, ServerDoes(a));
    ServerEvent(retention, Run(retention, s, events), a);
  }

  /** A request that arrives alone and finds its key free is executed and answered success. */
  lemma Serve(retention: int, s: System, m: nat, response: string)
    requires m in s.inbox && s.server.txs == map[] && !UsedId(s.server, m)
    requires var req := s.inbox[m];
             && req.write.guarded && !Taken(retention, s.server.claims, req, s.server.now)
             && (req.write.recorded ==> ScopeOf(req) !in s.server.records)
    ensures Run(retention, s, ServeEvents(m, response))
              == s.(inbox := s.inbox - {m}, server := ServedAlone(retention, s.server, m, s.inbox[m], response))
  {
    hide Run, Happens, Next, UsedId, Taken, ServedAlone, StaleOf;
    var req := s.inbox[m];
    ClaimFree(retention, s.server, m, req);
    ExecuteFree(retention, s.server, m, req, StaleOf(retention, s.server.claims, req.tenant, s.server.now), response);
    DeliverEvent(retention, s, m);
    var e1 := [Deliver(m)];
    RunOne(retention, s, Deliver(m));
    var e2 := e1 + [ServerDoes(Purge(m))];
    ServerPush(retention, s, e1, Purge(m));
    var e3 := e2 + [ServerDoes(CheckClaim(m))];
    ServerPush(retention, s, e2, CheckClaim(m));
    var e4 := e3 + [ServerDoes(InsertClaim(m))];
    ServerPush(retention, s, e3, InsertClaim(m));
    var e5 := e4 + [ServerDoes(Start(m))];
    ServerPush(retention, s, e4, Start(m));
    var e6 := e5 + [ServerDoes(InsertRecord(m))];
    ServerPush(retention, s, e5, InsertRecord(m));
    var e7 := e6 + [ServerDoes(Execute(m, response))];
    ServerPush(retention, s, e6, Execute(m, response));
    ServerPush(retention, s, e7, Step.Commit(m));
  }

  lemma RunOne(retention: int, s: System, e: Event)
    ensures Run(retention, s, [e]) == Happens(retention, s, e)
  {
    RunPush(retention, s, [], e);
    assert [] + [e] == [e];
  }

  /** A request that arrives alone and finds its key taken is answered with a conflict. */
  function RefuseEvents(m: nat): seq<Event> {
    [Deliver(m)] + [ServerDoes(Purge(m))] + [ServerDoes(CheckClaim(m))]
  }

  lemma Refuse(retention: int, s: System, m: nat)
    requires m in s.inbox && s.server.txs == map[] && !UsedId(s.server, m)
    requires s.inbox[m].write.guarded && Taken(retention, s.server.claims, s.inbox[m], s.server.now)
    ensures Run(retention, s, RefuseEvents(m))
              == s.(inbox := s.inbox - {m},
                    server := s.server.(answers := s.server.answers + [Answer(m, s.inbox[m], Conflict, "")]))
  {
    RefusedAlone(retention, s.server, m, s.inbox[m]);
    hide Run, Happens, Next, UsedId, Taken;
    DeliverEvent(retention, s, m);
    var e1 := [Deliver(m)];
    RunOne(retention, s, Deliver(m));
    var e2 := e1 + [ServerDoes(Purge(m))];
    ServerPush(retention, s, e1, Purge(m));
    ServerPush(retention, s, e2, CheckClaim(m));
  }

  lemma RefusedAlone(retention: int, s: Server, m: nat, req: Request)
    requires s.txs == map[] && !UsedId(s, m) && req.write.guarded && Taken(retention, s.claims, req, s.now)
    ensures var begun := Next(retention, s, Begin(m, req));
            Next(retention, Next(retention, begun, Purge(m)), CheckClaim(m))
              == s.(answers := s.answers + [Answer(m, req, Conflict, "")])
  {
    var begun := Update(s, m, Tx(req, s.now, Begun, {}, s.now, None, false, ""));
    PurgeAlone(retention, begun, m);
    var stale := StaleOf(retention, s.claims, req.tenant, s.now);
    var purged := Update(begun, m, begun.txs[m].(phase := Purged, purged := stale, purgedAt := s.now));
    ClaimAlone(retention, purged, m);
    assert purged.txs - {m} == s.txs;
  }

  // ----- A response that gets lost -----

  /** The user's write is executed, and the client, hearing nothing, queues it under its key. */
  function LostEvents(key: string, w: Write): seq<Event> {
    [Submit(key, w)] + ServeEvents(1, "first") + [NetworkFails(0)]
  }

  function LostState(tenant: string, actor: string, key: string, w: Write): System {
    var req := Request(tenant, actor, key, w);
    System(ServedAlone(0, START, 1, req, "first"), map[], tenant, actor, map[2 := Item(key, w, 0)], map[], 3,
           map[1 := req], map[2 := key], map[key := Owner(0, w)], {}, {key}, {}, {})
  }

  /** At the start nothing is claimed, so the retention does not matter. */
  lemma FirstServed(retention: int, m: nat, req: Request, response: string)
    ensures ServedAlone(retention, START, m, req, response) == ServedAlone(0, START, m, req, response)
  {
    assert StaleOf(retention, START.claims, req.tenant, START.now) == {};
    assert StaleOf(0, START.claims, req.tenant, START.now) == {};
  }

  lemma SubmitFirst(retention: int, tenant: string, actor: string, key: string, w: Write)
    ensures var req := Request(tenant, actor, key, w);
            Happens(retention, Initial(tenant, actor), Submit(key, w))
              == System(START, map[1 := req], tenant, actor, map[],
                        map[0 := Call(0, Direct, key, w, false, Waiting(1))], 2,
                        map[1 := req], map[], map[key := Owner(0, w)], {}, {}, {}, {})
  {
  }

  lemma LostRun(retention: int, tenant: string, actor: string, key: string, w: Write)
    requires w.guarded
    ensures Run(retention, Initial(tenant, actor), LostEvents(key, w)) == LostState(tenant, actor, key, w)
  {
    var s, req := Initial(tenant, actor), Request(tenant, actor, key, w);
    var events := [Submit(key, w)] + ServeEvents(1, "first");
    RunPush(retention, s, events, NetworkFails(0));
    RunConcat(retention, s, [Submit(key, w)], ServeEvents(1, "first"));
    RunOne(retention, s, Submit(key, w));
    SubmitFirst(retention, tenant, actor, key, w);
    hide Run, ServeEvents, ServedAlone;
    var sent := Happens(retention, s, Submit(key, w));
    Serve(retention, sent, 1, "first");
    FirstServed(retention, 1, req, "first");
    var served := sent.(inbox := sent.inbox - {1}, server := ServedAlone(0, START, 1, req, "first"));
    LosesResponse(retention, served, tenant, actor, key, w);
  }

  lemma LosesResponse(retention: int, s: System, tenant: string, actor: string, key: string, w: Write)
    requires var req := Request(tenant, actor, key, w);
             s == System(ServedAlone(0, START, 1, req, "first"), map[], tenant, actor, map[],
                         map[0 := Call(0, Direct, key, w, false, Waiting(1))], 2,
                         map[1 := req], map[], map[key := Owner(0, w)], {}, {}, {}, {})
    ensures Happens(retention, s, NetworkFails(0)) == LostState(tenant, actor, key, w)
  {
    hide ServedAlone;
  }

  /** So the premises of LostResponseBlocksWithoutSwitch can be met: the effect is committed
      and fresh, the write is queued, and nobody is about to hear of it. */
  lemma ResponseCanBeLost(retention: int, tenant: string, actor: string, key: string, w: Write)
    requires w.guarded
    ensures var s, k := Run(retention, Initial(tenant, actor), LostEvents(key, w)), ClaimKey(tenant, key);
            && |s.server.effects| == 1 && SameClaim(s.server.effects[0], k) && NobodyListens(s, k)
            && key in s.queued && key in Keys(s.outbox) && s.tenant == tenant
            && (forall m :: m in s.sent && s.sent[m].key == key ==> s.sent[m].tenant == tenant)
            && !Stale(retention, s.server.effects[0].started, s.server.now)
  {
    LostRun(retention, tenant, actor, key, w);
    hide Run, LostEvents;
    assert 2 in LostState(tenant, actor, key, w).outbox;
  }

  // ----- The same write under another tenant -----

  function SwitchEvents(key: string, w: Write, other: string): seq<Event> {
    LostEvents(key, w) + [SwitchTenant(other)] + [StartReplay(2)] + ServeEvents(4, "second")
    + [Receive(3, 1, false)] + [Settle(3)]
  }

  function SwitchServer(retention: int, tenant: string, actor: string, key: string, w: Write, other: string): Server {
    ServedAlone(retention, LostState(tenant, actor, key, w).server, 4, Request(other, actor, key, w), "second")
  }

  function SwitchState(retention: int, tenant: string, actor: string, key: string, w: Write, other: string): System {
    var req, again := Request(tenant, actor, key, w), Request(other, actor, key, w);
    System(SwitchServer(retention, tenant, actor, key, w, other), map[], other, actor, map[], map[], 5,
           map[1 := req, 4 := again], map[2 := key], map[key := Owner(0, w)], {}, {key}, {ClaimKey(other, key)}, {})
  }

  /** The replay of the item of LostState, sent under the tenant that is active now. */
  function ReplayedState(tenant: string, actor: string, key: string, w: Write, other: string): System {
    var again := Request(other, actor, key, w);
    var call := Call(3, Replay(2, Item(key, w, 0)), key, w, false, Waiting(4));
    var s := LostState(tenant, actor, key, w);
    s.(tenant := other, inbox := map[4 := again], calls := map[3 := call], next := 5, sent := s.sent[4 := again])
  }

  lemma ReplaysUnder(retention: int, tenant: string, actor: string, key: string, w: Write, other: string)
    ensures var s := LostState(tenant, actor, key, w);
            Happens(retention, Happens(retention, s, SwitchTenant(other)), StartReplay(2))
              == ReplayedState(tenant, actor, key, w, other)
  {
    hide ServedAlone;
  }

  lemma OtherTenantFree(retention: int, tenant: string, actor: string, key: string, w: Write, other: string)
    requires tenant != other
    ensures var server, again := LostState(tenant, actor, key, w).server, Request(other, actor, key, w);
            && server.txs == map[] && !UsedId(server, 4) && !Taken(retention, server.claims, again, server.now)
            && ScopeOf(again) !in server.records
  {
  }

  lemma SettlesReplay(retention: int, s: System, key: string, w: Write)
    requires s.calls == map[3 := Call(3, Replay(2, Item(key, w, 0)), key, w, false, Waiting(4))]
    requires |s.server.answers| == 2 && s.server.answers[1].id == 4 && s.server.answers[1].code == Success
    ensures Happens(retention, Happens(retention, s, Receive(3, 1, false)), Settle(3))
              == s.(calls := map[], seen := s.seen + {ClaimOf(s.server.answers[1].req)}, outbox := s.outbox - {2})
  {
    hide Happens;
    ReceiveHappens(retention, s, 3, 1, false);
    SettleHappens(retention, Received(s, 3, s.server.answers[1], false), 3);
  }

  lemma SwitchRun(retention: int, tenant: string, actor: string, key: string, w: Write, other: string)
    requires w.guarded && tenant != other
    ensures Run(retention, Initial(tenant, actor), SwitchEvents(key, w, other))
              == SwitchState(retention, tenant, actor, key, w, other)
  {
    hide Run, Happens, ServeEvents, LostEvents, UsedId, Taken;
    var init, s := Initial(tenant, actor), LostState(tenant, actor, key, w);
    LostRun(retention, tenant, actor, key, w);
    var e1 := LostEvents(key, w) + [SwitchTenant(other)];
    RunPush(retention, init, LostEvents(key, w), SwitchTenant(other));
    var e2 := e1 + [StartReplay(2)];
    RunPush(retention, init, e1, StartReplay(2));
    ReplaysUnder(retention, tenant, actor, key, w, other);
    var replayed := ReplayedState(tenant, actor, key, w, other);
    OtherTenantFree(retention, tenant, actor, key, w, other);
    RunConcat(retention, init, e2, ServeEvents(4, "second"));
    Serve(retention, replayed, 4, "second");
    var e3 := e2 + ServeEvents(4, "second");
    RunPush(retention, init, e3, Receive(3, 1, false));
    RunPush(retention, init, e3 + [Receive(3, 1, false)], Settle(3));
    var served := replayed.(inbox := map[], server := SwitchServer(retention, tenant, actor, key, w, other));
    SettlesReplay(retention, served, key, w);
  }

  /** The failing input of "until the user removes it": the write is queued as above, the tenant
      is switched, and a replay executes it again.  The outbox is empty, nothing was removed by
      the user, and one write has two effects at the same moment. */
  lemma SwitchEmptiesOutbox(retention: int, tenant: string, actor: string, key: string, w: Write, other: string)
    requires w.guarded && tenant != other
    ensures var s := Run(retention, Initial(tenant, actor), SwitchEvents(key, w, other));
            && LostEvents(key, w) <= SwitchEvents(key, w, other)
            && s.outbox == map[] && s.discarded == {} && key in s.queued && ClaimKey(tenant, key) !in s.seen
            && |s.server.effects| == 2
            && s.server.effects[0].req == Request(tenant, actor, key, w)
            && s.server.effects[1].req == Request(other, actor, key, w)
            && (forall e :: e in s.server.effects ==> !Stale(retention, e.started, s.server.now))
            && !(retention > 0 && s.server.effects[0].started + retention < s.server.effects[1].claimedAt)
            && s.owner == map[key := Owner(0, w)]
  {
    SwitchRun(retention, tenant, actor, key, w, other);
    hide Run, LostEvents;
  }

  /** A run that ends with two effects of one user write within the retention, under these tenants. */
  ghost predicate ExecutedTwice(retention: int, s: System, w: Write, first: string, second: string) {
    exists i: nat, j: nat ::
      && i < j < |s.server.effects|
      && s.server.effects[i].req.key in s.owner && s.server.effects[j].req.key in s.owner
      && s.owner[s.server.effects[i].req.key].user == s.owner[s.server.effects[j].req.key].user
      && s.server.effects[i].req.write == w
      && s.server.effects[i].req.tenant == first && s.server.effects[j].req.tenant == second
      && !(retention > 0 && s.server.effects[i].started + retention < s.server.effects[j].claimedAt)
  }

  /** For a guarded write such a run exists exactly when the tenants differ. */
  lemma ExecutedTwiceExactlyAcrossTenants(retention: int, actor: string, w: Write, first: string, second: string)
    requires w.guarded
    ensures (exists tenant, events ::
               ExecutedTwice(retention, Run(retention, Initial(tenant, actor), events), w, first, second))
            <==> first != second
  {
    if first != second {
      SwitchEmptiesOutbox(retention, first, actor, "k", w, second);
      hide Run, SwitchEvents;
      TwiceFrom(retention, Run(retention, Initial(first, actor), SwitchEvents("k", w, second)), w, first, second);
    }
    forall tenant, events | ExecutedTwice(retention, Run(retention, Initial(tenant, actor), events), w, first, second)
      ensures first != second
    {
      NeverTwiceUnderOneTenant(retention, tenant, actor, events, w, first, second);
    }
  }

  lemma TwiceFrom(retention: int, s: System, w: Write, first: string, second: string)
    requires |s.server.effects| == 2
    requires s.server.effects[0].req.key == s.server.effects[1].req.key
    requires s.owner == map[s.server.effects[0].req.key := Owner(0, w)]
    requires s.server.effects[0].req.write == w
    requires s.server.effects[0].req.tenant == first && s.server.effects[1].req.tenant == second
    requires !(retention > 0 && s.server.effects[0].started + retention < s.server.effects[1].claimedAt)
    ensures ExecutedTwice(retention, s, w, first, second)
  {
    var i: nat, j: nat := 0, 1;
    assert i < j < |s.server.effects|;
  }

  lemma NeverTwiceUnderOneTenant(retention: int, tenant: string, actor: string, events: seq<Event>, w: Write,
                                 first: string, second: string)
    requires w.guarded && ExecutedTwice(retention, Run(retention, Initial(tenant, actor), events), w, first, second)
    ensures first != second
  {
    var s := Run(retention, Initial(tenant, actor), events);
    var i: nat, j: nat :|
      && i < j < |s.server.effects|
      && s.server.effects[i].req.key in s.owner && s.server.effects[j].req.key in s.owner
      && s.owner[s.server.effects[i].req.key].user == s.owner[s.server.effects[j].req.key].user
      && s.server.effects[i].req.write == w
      && s.server.effects[i].req.tenant == first && s.server.effects[j].req.tenant == second
      && !(retention > 0 && s.server.effects[i].started + retention < s.server.effects[j].claimedAt);
    SecondEffectNeedsAnotherTenant(retention, tenant, actor, events, i, j);
  }

  // ----- Two overlapping replays -----

  /** The write never reaches the server and is queued; two passes replay its item. */
  function OverlapEvents(key: string, w: Write): seq<Event> {
    [Submit(key, w)] + [Lose(1)] + [NetworkFails(0)] + [StartReplay(2)] + [StartReplay(2)]
  }

  function OverlapState(tenant: string, actor: string, key: string, w: Write): System {
    var req := Request(tenant, actor, key, w);
    var call := Call(3, Replay(2, Item(key, w, 0)), key, w, false, Waiting(4));
    System(START, map[4 := req, 6 := req], tenant, actor, map[2 := Item(key, w, 0)],
           map[3 := call, 5 := call.(user := 5, phase := Waiting(6))], 7,
           map[1 := req, 4 := req, 6 := req], map[2 := key], map[key := Owner(0, w)], {}, {key}, {}, {})
  }

  lemma OverlapRun(retention: int, tenant: string, actor: string, key: string, w: Write)
    ensures Run(retention, Initial(tenant, actor), OverlapEvents(key, w)) == OverlapState(tenant, actor, key, w)
  {
    var s := Initial(tenant, actor);
    RunOne(retention, s, Submit(key, w));
    SubmitFirst(retention, tenant, actor, key, w);
    RunPush(retention, s, [Submit(key, w)], Lose(1));
    RunPush(retention, s, [Submit(key, w)] + [Lose(1)], NetworkFails(0));
    RunPush(retention, s, [Submit(key, w)] + [Lose(1)] + [NetworkFails(0)], StartReplay(2));
    RunPush(retention, s, [Submit(key, w)] + [Lose(1)] + [NetworkFails(0)] + [StartReplay(2)], StartReplay(2));
    hide Run;
    var submitted := Happens(retention, s, Submit(key, w));
    NeverArrives(retention, submitted, tenant, actor, key, w);
    hide Happens;
    ReplayedTwice(retention, tenant, actor, key, w);
  }

  /** The outbox after a request that got lost on its way. */
  function QueuedState(tenant: string, actor: string, key: string, w: Write): System {
    System(START, map[], tenant, actor, map[2 := Item(key, w, 0)], map[], 3,
           map[1 := Request(tenant, actor, key, w)], map[2 := key], map[key := Owner(0, w)], {}, {key}, {}, {})
  }

  lemma NeverArrives(retention: int, s: System, tenant: string, actor: string, key: string, w: Write)
    requires var req := Request(tenant, actor, key, w);
             s == System(START, map[1 := req], tenant, actor, map[],
                         map[0 := Call(0, Direct, key, w, false, Waiting(1))], 2,
                         map[1 := req], map[], map[key := Owner(0, w)], {}, {}, {}, {})
    ensures Happens(retention, Happens(retention, s, Lose(1)), NetworkFails(0)) == QueuedState(tenant, actor, key, w)
  {
  }

  lemma ReplayedTwice(retention: int, tenant: string, actor: string, key: string, w: Write)
    ensures var s := QueuedState(tenant, actor, key, w);
            Happens(retention, Happens(retention, s, StartReplay(2)), StartReplay(2))
              == OverlapState(tenant, actor, key, w)
  {
  }

  /** One replay is executed and deletes the item, the other is refused, in between its put-back. */
  function DeleteEvents(): seq<Event> {
    ServeEvents(4, "first") + RefuseEvents(6) + [Receive(3, 0, false)] + [Receive(5, 1, false)] + [Settle(3)]
  }

  function DeletedState(tenant: string, actor: string, key: string, w: Write): System {
    var req, s := Request(tenant, actor, key, w), OverlapState(tenant, actor, key, w);
    var server := ServedAlone(0, START, 4, req, "first");
    s.(inbox := map[], server := server.(answers := server.answers + [Answer(6, req, Conflict, "")]),
       outbox := map[], calls := map[5 := s.calls[5].(phase := PuttingBack)], seen := {ClaimKey(tenant, key)})
  }

  lemma SecondRefused(retention: int, tenant: string, actor: string, key: string, w: Write)
    requires w.guarded
    ensures var req := Request(tenant, actor, key, w);
            var server := ServedAlone(0, START, 4, req, "first");
            !UsedId(server, 6) && Taken(retention, server.claims, req, server.now) && server.txs == map[]
            && server.effects == [Effect(4, req, 0, 0, "first")] && server.answers == [Answer(4, req, Success, "first")]
  {
  }

  lemma HearsBoth(retention: int, s: System, tenant: string, actor: string, key: string, w: Write)
    requires s.calls == OverlapState(tenant, actor, key, w).calls && |s.server.answers| == 2
    requires s.server.answers[0].id == 4 && s.server.answers[0].code == Success
    requires s.server.answers[1].id == 6 && s.server.answers[1].code == Conflict
    ensures var heard := Happens(retention, Happens(retention, s, Receive(3, 0, false)), Receive(5, 1, false));
            Happens(retention, heard, Settle(3))
              == s.(calls := map[5 := s.calls[5].(phase := PuttingBack)], outbox := s.outbox - {2},
                    seen := s.seen + {ClaimOf(s.server.answers[0].req)})
  {
    hide Happens, Received, Settled;
    ReceiveHappens(retention, s, 3, 0, false);
    HearsSuccess(s, 3, s.server.answers[0]);
    var first := s.(calls := s.calls[3 := s.calls[3].(phase := Deleting)],
                    seen := s.seen + {ClaimOf(s.server.answers[0].req)});
    ReceiveHappens(retention, first, 5, 1, false);
    HearsRefusal(first, 5, s.server.answers[1]);
    var second := first.(calls := first.calls[5 := first.calls[5].(phase := PuttingBack)]);
    SettleHappens(retention, second, 3);
    DeletesItem(second, 3);
  }

  lemma HearsSuccess(s: System, c: nat, answer: Answer)
    requires IsWaiting(s, c) && s.calls[c].origin.Replay? && answer.code == Success
    ensures Received(s, c, answer, false)
              == s.(calls := s.calls[c := s.calls[c].(phase := Deleting)], seen := s.seen + {ClaimOf(answer.req)})
  {
  }

  lemma HearsRefusal(s: System, c: nat, answer: Answer)
    requires IsWaiting(s, c) && s.calls[c].origin.Replay? && answer.code != Success
    ensures Received(s, c, answer, false) == s.(calls := s.calls[c := s.calls[c].(phase := PuttingBack)])
  {
  }

  lemma DeletesItem(s: System, c: nat)
    requires c in s.calls && s.calls[c].origin.Replay? && s.calls[c].phase.Deleting?
    ensures Settled(s, c) == s.(calls := s.calls - {c}, outbox := s.outbox - {s.calls[c].origin.item})
  {
  }

  lemma PutsItemBack(s: System, c: nat)
    requires c in s.calls && s.calls[c].origin.Replay? && s.calls[c].phase.PuttingBack?
    ensures Settled(s, c)
              == s.(calls := s.calls - {c},
                    outbox := s.outbox[s.calls[c].origin.item := PutBack(s.calls[c].origin.copy)])
  {
  }

  lemma DeleteRun(retention: int, tenant: string, actor: string, key: string, w: Write)
    requires w.guarded
    ensures Run(retention, OverlapState(tenant, actor, key, w), DeleteEvents()) == DeletedState(tenant, actor, key, w)
  {
    hide Run, Happens, ServeEvents, RefuseEvents, UsedId, Taken, ServedAlone;
    var s, req := OverlapState(tenant, actor, key, w), Request(tenant, actor, key, w);
    NothingServedYet(retention, req);
    Serve(retention, s, 4, "first");
    FirstServed(retention, 4, req, "first");
    SecondRefused(retention, tenant, actor, key, w);
    var served := s.(inbox := s.inbox - {4}, server := ServedAlone(0, START, 4, req, "first"));
    RunConcat(retention, s, ServeEvents(4, "first"), RefuseEvents(6));
    Refuse(retention, served, 6);
    var e := ServeEvents(4, "first") + RefuseEvents(6);
    RunPush(retention, s, e, Receive(3, 0, false));
    RunPush(retention, s, e + [Receive(3, 0, false)], Receive(5, 1, false));
    RunPush(retention, s, e + [Receive(3, 0, false)] + [Receive(5, 1, false)], Settle(3));
    HearsBoth(retention, Run(retention, s, e), tenant, actor, key, w);
  }

  lemma NothingServedYet(retention: int, req: Request)
    ensures START.txs == map[] && !UsedId(START, 4) && !Taken(retention, START.claims, req, START.now)
    ensures ScopeOf(req) !in START.records
  {
  }

  /** A late put-back stores again the item another pass has deleted after its success. */
  lemma LatePutBackRestoresItem(retention: int, tenant: string, actor: string, key: string, w: Write)
    requires w.guarded
    ensures var s := Run(retention, Initial(tenant, actor), OverlapEvents(key, w) + DeleteEvents());
            var t := Run(retention, Initial(tenant, actor), OverlapEvents(key, w) + DeleteEvents() + [Settle(5)]);
            && s.outbox == map[] && ClaimKey(tenant, key) in s.seen && |s.server.effects| == 1
            && t.outbox == map[2 := Item(key, w, 1)] && t.server == s.server
  {
    hide ServedAlone, DeleteEvents, OverlapEvents;
    RunConcat(retention, Initial(tenant, actor), OverlapEvents(key, w), DeleteEvents());
    OverlapRun(retention, tenant, actor, key, w);
    DeleteRun(retention, tenant, actor, key, w);
    SecondRefused(retention, tenant, actor, key, w);
    RunPush(retention, Initial(tenant, actor), OverlapEvents(key, w) + DeleteEvents(), Settle(5));
    hide Run;
    hide Happens;
    SettleHappens(retention, DeletedState(tenant, actor, key, w), 5);
  }
}
