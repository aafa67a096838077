// Every message leaves consistent traces, and every key keeps the write it was minted for.
module WritePathTrace {
  import opened IdempotencyServer
  import opened WritePath

  ghost predicate InboxOk(inbox: map<nat, Request>, sent: map<nat, Request>, server: Server) {
    forall m :: m in inbox ==> m in sent && inbox[m] == sent[m] && !UsedId(server, m)
  }

  ghost predicate TxsSent(txs: map<nat, Tx>, sent: map<nat, Request>) {
    forall m :: m in txs ==> m in sent && txs[m].req == sent[m]
  }

  ghost predicate AnswersSent(answers: seq<Answer>, sent: map<nat, Request>, txs: map<nat, Tx>) {
    forall a :: a in answers ==> a.id in sent && a.req == sent[a.id] && a.id !in txs
  }

  ghost predicate EffectsSent(effects: seq<Effect>, sent: map<nat, Request>, txs: map<nat, Tx>) {
    forall e :: e in effects ==> e.id in sent && e.req == sent[e.id] && e.id !in txs
  }

  /** A request refused with 401 has had no effect. */
  ghost predicate NoEffectOf401(answers: seq<Answer>, effects: seq<Effect>) {
    forall a, e | a in answers && e in effects && a.code == Unauthorized :: a.id != e.id
  }

  /** Every trace a message leaves, on the network and in the server, is of the request sent. */
  ghost predicate MessagesOk(server: Server, inbox: map<nat, Request>, sent: map<nat, Request>, next: nat) {
    && (forall m :: m in sent ==> m < next)
    && InboxOk(inbox, sent, server)
    && TxsSent(server.txs, sent)
    && AnswersSent(server.answers, sent, server.txs)
    && EffectsSent(server.effects, sent, server.txs)
    && NoEffectOf401(server.answers, server.effects)
  }

  ghost predicate Traced(s: System) {
    MessagesOk(s.server, s.inbox, s.sent, s.next)
  }

  predicate Owned(owner: map<string, Owner>, key: string, write: Write) {
    key in owner && owner[key].write == write
  }

  ghost predicate SentOwned(sent: map<nat, Request>, owner: map<string, Owner>) {
    forall m :: m in sent ==> Owned(owner, sent[m].key, sent[m].write)
  }

  ghost predicate OutboxOwned(outbox: map<nat, Item>, owner: map<string, Owner>) {
    forall i :: i in outbox ==> Owned(owner, outbox[i].key, outbox[i].write)
  }

  predicate CallOwned(owner: map<string, Owner>, c: Call) {
    Owned(owner, c.key, c.write) && (c.origin.Replay? ==> c.origin.copy.key == c.key && c.origin.copy.write == c.write)
  }

  ghost predicate CallsOwned(calls: map<nat, Call>, owner: map<string, Owner>) {
    forall c :: c in calls ==> CallOwned(owner, calls[c])
  }

  /** A key always travels with the write it was minted for. */
  ghost predicate KeysOk(s: System) {
    SentOwned(s.sent, s.owner) && OutboxOwned(s.outbox, s.owner) && CallsOwned(s.calls, s.owner)
  }

  /** What a server step other than an arrival leaves alone and adds. */
  ghost predicate Grown(s: Server, t: Server) {
    && (forall i :: i in t.txs ==> i in s.txs && t.txs[i].req == s.txs[i].req)
    && s.answers <= t.answers && s.effects <= t.effects
    && (forall x :: x in t.answers[|s.answers|..] ==>
          x.id in s.txs && x.req == s.txs[x.id].req && x.id !in t.txs && x.code != Unauthorized)
    && (forall x :: x in t.effects[|s.effects|..] ==> x.id in s.txs && x.req == s.txs[x.id].req && x.id !in t.txs)
  }

  lemma ServerFrame(retention: int, s: Server, a: Step)
    requires Enabled(retention, s, a) && !a.Begin? && !a.Reject?
    ensures Grown(s, Apply(retention, s, a))
  {
    if a.Commit? {
      PublishGrown(s, a.id);
    } else if a.Start? || a.InsertRecord? {
      hide Apply, Enabled;
      StartFrame(retention, s, a);
      FramedGrown(s, Apply(retention, s, a), a.id);
    } else if !a.Tick? && !a.Crash? {
      hide Apply, Enabled;
      OwnFrame(retention, s, a);
      FramedGrown(s, Apply(retention, s, a), a.id);
    }
  }

  lemma FramedGrown(s: Server, t: Server, id: nat)
    requires Framed(s, t, id) && t.effects == s.effects
    ensures Grown(s, t)
  {
  }

  lemma PublishGrown(s: Server, id: nat)
    requires id in s.txs
    ensures Grown(s, Publish(s, id))
  {
    hide ClaimsAfter, ScopeOf;
  }

  lemma StartFrame(retention: int, s: Server, a: Step)
    requires Enabled(retention, s, a) && (a.Start? || a.InsertRecord?)
    ensures var t := Apply(retention, s, a);
            && t.effects == s.effects && Framed(s, t, a.id)
  {
    hide ClaimLocked, RecordLocked, StaleClaims, ClaimsAfter, ScopeOf, ClaimOf;
  }

  /** A step of transaction id alone: it goes on, or ends with one answer. */
  predicate Framed(s: Server, t: Server, id: nat) {
    && id in s.txs
    && if id in t.txs then t.txs == s.txs[id := t.txs[id]] && t.txs[id].req == s.txs[id].req && t.answers == s.answers
       else t.txs == s.txs - {id} && |t.answers| == |s.answers| + 1 && s.answers == t.answers[..|s.answers|]
            && var x := t.answers[|s.answers|]; x.id == id && x.req == s.txs[id].req && x.code != Unauthorized
  }

  lemma OwnFrame(retention: int, s: Server, a: Step)
    requires Enabled(retention, s, a)
    requires a.Unguarded? || a.Purge? || a.CheckClaim? || a.InsertClaim? || a.Execute? || a.Fail?
    ensures var t := Apply(retention, s, a);
            && t.effects == s.effects && Framed(s, t, a.id)
  {
    hide ClaimLocked, RecordLocked, StaleClaims, ClaimsAfter, ScopeOf, ClaimOf;
  }

  lemma GrownAnswer(s: Server, t: Server, x: Answer)
    requires Grown(s, t) && x in t.answers
    ensures x in s.answers || (x.id in s.txs && x.req == s.txs[x.id].req && x.id !in t.txs && x.code != Unauthorized)
  {
    assert t.answers == s.answers + t.answers[|s.answers|..];
  }

  lemma GrownEffect(s: Server, t: Server, x: Effect)
    requires Grown(s, t) && x in t.effects
    ensures x in s.effects || (x.id in s.txs && x.req == s.txs[x.id].req && x.id !in t.txs)
  {
    assert t.effects == s.effects + t.effects[|s.effects|..];
  }

  lemma GrownInbox(s: Server, t: Server, inbox: map<nat, Request>, sent: map<nat, Request>)
    requires Grown(s, t) && InboxOk(inbox, sent, s)
    ensures InboxOk(inbox, sent, t)
  {
    forall m | m in inbox
      ensures !UsedId(t, m)
    {
      assert !UsedId(s, m);
      forall x | x in t.answers
        ensures x.id != m
      {
        GrownAnswer(s, t, x);
      }
      forall x | x in t.effects
        ensures x.id != m
      {
        GrownEffect(s, t, x);
      }
    }
  }

  lemma GrownTraces(s: Server, t: Server, sent: map<nat, Request>)
    requires Grown(s, t) && TxsSent(s.txs, sent)
    requires AnswersSent(s.answers, sent, s.txs) && EffectsSent(s.effects, sent, s.txs)
    requires NoEffectOf401(s.answers, s.effects)
    ensures AnswersSent(t.answers, sent, t.txs) && EffectsSent(t.effects, sent, t.txs)
    ensures NoEffectOf401(t.answers, t.effects)
  {
    forall x | x in t.answers
      ensures x.id in sent && x.req == sent[x.id] && x.id !in t.txs
      ensures x.code == Unauthorized ==> x in s.answers
    {
      GrownAnswer(s, t, x);
    }
    forall x | x in t.effects
      ensures x.id in sent && x.req == sent[x.id] && x.id !in t.txs
      ensures x in s.effects || x.id in s.txs
    {
      GrownEffect(s, t, x);
    }
  }

  lemma ServerStepTraced(retention: int, s: System, a: Step)
    requires Traced(s) && Possible(retention, s, ServerDoes(a))
    ensures Traced(Do(retention, s, ServerDoes(a)))
  {
    ServerFrame(retention, s.server, a);
    hide Apply, Enabled;
    var t := Apply(retention, s.server, a);
    assert TxsSent(t.txs, s.sent);
    hide InboxOk, TxsSent, AnswersSent, EffectsSent, NoEffectOf401;
    GrownInbox(s.server, t, s.inbox, s.sent);
    GrownTraces(s.server, t, s.sent);
  }

  lemma ArrivalTraced(retention: int, s: System, e: Event)
    requires Traced(s) && Possible(retention, s, e) && (e.Deliver? || e.Unauthorize?)
    ensures Traced(Do(retention, s, e))
  {
    var t := Do(retention, s, e);
    assert !UsedId(s.server, e.msg);
    assert InboxOk(t.inbox, t.sent, t.server) by {
      forall m | m in t.inbox ensures !UsedId(t.server, m) {
        assert !UsedId(s.server, m);
      }
    }
  }

  lemma SendTraced(server: Server, inbox: map<nat, Request>, sent: map<nat, Request>, next: nat, req: Request)
    requires MessagesOk(server, inbox, sent, next)
    ensures MessagesOk(server, inbox[next := req], sent[next := req], next + 1)
  {
    assert !UsedId(server, next);
  }

  lemma SubmitTraced(retention: int, s: System, key: string, write: Write)
    requires Traced(s) && Possible(retention, s, Submit(key, write))
    ensures Traced(Do(retention, s, Submit(key, write)))
  {
    hide InboxOk, TxsSent, AnswersSent, EffectsSent, NoEffectOf401;
    SendTraced(s.server, s.inbox, s.sent, s.next + 1, Request(s.tenant, s.actor, key, write));
  }

  lemma StartReplayTraced(retention: int, s: System, i: nat)
    requires Traced(s) && Possible(retention, s, StartReplay(i))
    ensures Traced(Do(retention, s, StartReplay(i)))
  {
    hide InboxOk, TxsSent, AnswersSent, EffectsSent, NoEffectOf401;
    SendTraced(s.server, s.inbox, s.sent, s.next + 1, Request(s.tenant, s.actor, s.outbox[i].key, s.outbox[i].write));
  }

  lemma RefreshOkTraced(retention: int, s: System, c: nat, key: string)
    requires Traced(s) && Possible(retention, s, RefreshOk(c, key))
    ensures Traced(Do(retention, s, RefreshOk(c, key)))
  {
    hide InboxOk, TxsSent, AnswersSent, EffectsSent, NoEffectOf401;
    SendTraced(s.server, s.inbox, s.sent, s.next,
               Request(s.tenant, s.actor, if s.calls[c].origin.Replay? then s.calls[c].key else key, s.calls[c].write));
  }

  /** Events that put nothing on the network and do not reach the server. */
  predicate Quiet(e: Event) {
    || e.NetworkFails? || e.Receive? || e.RefreshFails? || e.Settle?
    || e.Discard? || e.Clear? || e.SwitchTenant? || e.SwitchActor?
  }

  lemma QuietFrame(retention: int, s: System, e: Event)
    requires Possible(retention, s, e) && Quiet(e)
    ensures var t := Do(retention, s, e);
            t.server == s.server && t.inbox == s.inbox && t.sent == s.sent && t.next >= s.next
  {
    if e.Receive? {
      hide Do, Possible;
      ReceiveFrame(retention, s, e.call, e.answer, e.canRefresh);
    } else if e.NetworkFails? {
      hide Do, Possible;
      NetworkFailsFrame(retention, s, e.call);
    } else if e.RefreshFails? || e.Settle? {
      hide Do, Possible;
      EndFrame(retention, s, e.call);
    } else {
      hide Enabled, Apply, UsedId;
    }
  }

  lemma ReceiveDoes(retention: int, s: System, c: nat, i: nat, canRefresh: bool)
    requires Possible(retention, s, Receive(c, i, canRefresh))
    ensures i < |s.server.answers| && IsWaiting(s, c)
    ensures s.server.answers[i].id == s.calls[c].phase.msg
    ensures Do(retention, s, Receive(c, i, canRefresh)) == Received(s, c, s.server.answers[i], canRefresh)
  {
    hide Received, Enabled, Apply, Keys;
  }

  lemma SettleDoes(retention: int, s: System, c: nat)
    requires Possible(retention, s, Settle(c))
    ensures c in s.calls && (s.calls[c].phase.PuttingBack? || s.calls[c].phase.Deleting?)
    ensures Do(retention, s, Settle(c)) == Settled(s, c)
  {
    hide Settled, Enabled, Apply, Keys;
  }

  lemma NetworkFailsFrame(retention: int, s: System, c: nat)
    requires Possible(retention, s, NetworkFails(c))
    ensures var t := Do(retention, s, NetworkFails(c));
            t.server == s.server && t.inbox == s.inbox && t.sent == s.sent && t.next == s.next + 1
  {
    hide Keys, Apply, Enabled;
  }

  lemma CallFailsFrame(s: System, c: nat)
    requires c in s.calls
    ensures CallFails(s, c) == s.(calls := CallFails(s, c).calls)
  {
  }

  lemma EndFrame(retention: int, s: System, c: nat)
    ensures Possible(retention, s, RefreshFails(c)) ==>
              var t := Do(retention, s, RefreshFails(c)); t == s.(calls := t.calls)
    ensures Possible(retention, s, Settle(c)) ==>
              var t := Do(retention, s, Settle(c)); t == s.(calls := t.calls, outbox := t.outbox)
  {
    hide Keys, Apply, Enabled, UsedId, CallFails, Settled;
    if Possible(retention, s, RefreshFails(c)) { CallFailsFrame(s, c); }
    if Possible(retention, s, Settle(c)) { SettledFrame(s, c); }
  }

  lemma SettledFrame(s: System, c: nat)
    requires c in s.calls
    ensures Settled(s, c) == s.(calls := Settled(s, c).calls, outbox := Settled(s, c).outbox)
  {
  }

  lemma ReceiveFrame(retention: int, s: System, c: nat, i: nat, canRefresh: bool)
    requires Possible(retention, s, Receive(c, i, canRefresh))
    ensures var t := Do(retention, s, Receive(c, i, canRefresh));
            t == s.(seen := t.seen, calls := t.calls)
  {
    hide Do, Possible, CallFails, ClaimOf;
    ReceiveDoes(retention, s, c, i, canRefresh);
    CallFailsFrame(s, c);
  }

  lemma QuietTraced(retention: int, s: System, e: Event)
    requires Traced(s) && Possible(retention, s, e) && Quiet(e)
    ensures Traced(Do(retention, s, e))
  {
    QuietFrame(retention, s, e);
    hide InboxOk, TxsSent, AnswersSent, EffectsSent, NoEffectOf401, Do, Possible;
  }

  lemma LoseTraced(s: System, m: nat)
    requires Traced(s) && m in s.inbox
    ensures MessagesOk(s.server, s.inbox - {m}, s.sent, s.next)
  {
  }

  lemma LostTraced(retention: int, s: System, m: nat)
    requires Traced(s) && Possible(retention, s, Lose(m))
    ensures Traced(Do(retention, s, Lose(m)))
  {
    LoseTraced(s, m);
  }

  lemma HappensTraced(retention: int, s: System, e: Event)
    requires Traced(s)
    ensures Traced(Happens(retention, s, e))
  {
    hide Traced, Do;
    if Possible(retention, s, e) {
      match e
      case ServerDoes(a) => ServerStepTraced(retention, s, a);
      case Deliver(_) => ArrivalTraced(retention, s, e);
      case Unauthorize(_) => ArrivalTraced(retention, s, e);
      case Lose(m) => LostTraced(retention, s, m);
      case Submit(key, write) => SubmitTraced(retention, s, key, write);
      case StartReplay(i) => StartReplayTraced(retention, s, i);
      case RefreshOk(c, key) => RefreshOkTraced(retention, s, c, key);
      case _ => QuietTraced(retention, s, e);
    }
  }

  lemma SendKeys(s: System, c: nat, call: Call, key: string)
    requires SentOwned(s.sent, s.owner) && CallsOwned(s.calls, s.owner)
    requires CallOwned(s.owner, call.(key := key))
    ensures var t := Send(s, c, call, key); SentOwned(t.sent, s.owner) && CallsOwned(t.calls, s.owner)
  {
  }

  lemma MintKeys(s: System, key: string, o: Owner)
    requires KeysOk(s) && key !in s.owner
    ensures KeysOk(s.(owner := s.owner[key := o]))
  {
  }

  lemma CallFailsKeys(s: System, c: nat)
    requires KeysOk(s) && c in s.calls
    ensures KeysOk(CallFails(s, c))
  {
    assert CallOwned(s.owner, s.calls[c]);
  }

  lemma SettleKeys(retention: int, s: System, c: nat)
    requires KeysOk(s) && Possible(retention, s, Settle(c))
    ensures KeysOk(Do(retention, s, Settle(c)))
  {
    assert CallOwned(s.owner, s.calls[c]);
  }

  lemma EnqueueKeys(s: System, key: string, write: Write)
    requires KeysOk(s) && Owned(s.owner, key, write)
    ensures KeysOk(Enqueue(s, key, write))
  {
  }

  lemma CallOfOwned(s: System, c: nat)
    requires KeysOk(s) && c in s.calls
    ensures CallOwned(s.owner, s.calls[c])
  {
  }

  lemma ReplaceCall(s: System, c: nat, phase: CallPhase)
    requires KeysOk(s) && c in s.calls
    ensures KeysOk(s.(calls := s.calls[c := s.calls[c].(phase := phase)])) && KeysOk(s.(calls := s.calls - {c}))
  {
    assert CallOwned(s.owner, s.calls[c]);
  }

  lemma ReceiveKeys(retention: int, s: System, c: nat, i: nat, canRefresh: bool)
    requires KeysOk(s) && Possible(retention, s, Receive(c, i, canRefresh))
    ensures KeysOk(Do(retention, s, Receive(c, i, canRefresh)))
  {
    hide SentOwned, OutboxOwned, CallsOwned, Do, Possible;
    ReceiveDoes(retention, s, c, i, canRefresh);
    CallFailsKeys(s, c);
    ReplaceCall(s, c, Deleting);
    ReplaceCall(s, c, Refreshing(s.calls[c].phase.msg));
  }

  lemma SubmitKeys(retention: int, s: System, key: string, write: Write)
    requires KeysOk(s) && Possible(retention, s, Submit(key, write))
    ensures KeysOk(Do(retention, s, Submit(key, write)))
  {
    hide SentOwned, OutboxOwned, CallsOwned;
    var o := Owner(s.next, write);
    MintKeys(s, key, o);
    SendKeys(s.(next := s.next + 1, owner := s.owner[key := o]), s.next,
             Call(s.next, Direct, key, write, false, PuttingBack), key);
  }

  lemma StartReplayKeys(retention: int, s: System, i: nat)
    requires KeysOk(s) && Possible(retention, s, StartReplay(i))
    ensures KeysOk(Do(retention, s, StartReplay(i)))
  {
    assert Owned(s.owner, s.outbox[i].key, s.outbox[i].write);
    hide SentOwned, OutboxOwned, CallsOwned;
    SendKeys(s.(next := s.next + 1), s.next, ReplayCall(s, i), s.outbox[i].key);
  }

  lemma NetworkFailsKeys(retention: int, s: System, c: nat)
    requires KeysOk(s) && Possible(retention, s, NetworkFails(c))
    ensures KeysOk(Do(retention, s, NetworkFails(c)))
  {
    hide KeysOk;
    CallOfOwned(s, c);
    EnqueueKeys(s, s.calls[c].key, s.calls[c].write);
    CallFailsKeys(Enqueue(s, s.calls[c].key, s.calls[c].write), c);
  }

  lemma RefreshOkKeys(retention: int, s: System, c: nat, key: string)
    requires KeysOk(s) && Possible(retention, s, RefreshOk(c, key))
    ensures KeysOk(Do(retention, s, RefreshOk(c, key)))
  {
    hide SentOwned, OutboxOwned, CallsOwned;
    CallOfOwned(s, c);
    var call := s.calls[c].(retried := true);
    MintKeys(s, key, Owner(call.user, call.write));
    if call.origin.Replay? {
      SendKeys(s, c, call, call.key);
    } else {
      SendKeys(s.(owner := s.owner[key := Owner(call.user, call.write)]), c, call, key);
    }
  }

  /** Arrivals, losses and the server's own steps change no key, no call and no item. */
  lemma ElsewhereKeys(retention: int, s: System, e: Event)
    requires KeysOk(s) && Possible(retention, s, e)
    requires e.ServerDoes? || e.Deliver? || e.Unauthorize? || e.Lose? || e.SwitchTenant? || e.SwitchActor?
    ensures KeysOk(Do(retention, s, e))
  {
    hide SentOwned, OutboxOwned, CallsOwned, Apply, Enabled, UsedId, Keys;
  }

  lemma RemovalKeys(retention: int, s: System, e: Event)
    requires KeysOk(s) && Possible(retention, s, e) && (e.Discard? || e.Clear?)
    ensures KeysOk(Do(retention, s, e))
  {
    hide SentOwned, CallsOwned, Keys;
  }

  lemma RefreshFailsKeys(retention: int, s: System, c: nat)
    requires KeysOk(s) && Possible(retention, s, RefreshFails(c))
    ensures KeysOk(Do(retention, s, RefreshFails(c)))
  {
    hide KeysOk, CallFails;
    CallFailsKeys(s, c);
  }

  /** No event parts a key from the write it was minted for. */
  lemma HappensKeys(retention: int, s: System, e: Event)
    requires KeysOk(s)
    ensures KeysOk(Happens(retention, s, e))
  {
    hide KeysOk, Do, Possible;
    if Possible(retention, s, e) {
      match e
      case Submit(key, write) => SubmitKeys(retention, s, key, write);
      case StartReplay(i) => StartReplayKeys(retention, s, i);
      case NetworkFails(c) => NetworkFailsKeys(retention, s, c);
      case Receive(c, i, canRefresh) => ReceiveKeys(retention, s, c, i, canRefresh);
      case RefreshOk(c, key) => RefreshOkKeys(retention, s, c, key);
      case RefreshFails(c) => RefreshFailsKeys(retention, s, c);
      case Settle(c) => SettleKeys(retention, s, c);
      case Discard(_) => RemovalKeys(retention, s, e);
      case Clear => RemovalKeys(retention, s, e);
      case _ => ElsewhereKeys(retention, s, e);
    }
  }
}
