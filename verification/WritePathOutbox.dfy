// The outbox keeps a write until the client saw it succeed or the user removed it.
module WritePathOutbox {
  import opened IdempotencyServer
  import opened WritePath
  import opened WritePathTrace

  ghost predicate SeenOk(seen: set<ClaimKey>, answers: seq<Answer>) {
    forall k :: k in seen ==> exists a :: a in answers && a.code == Success && ClaimOf(a.req) == k
  }

  ghost predicate SeenKey(seen: set<ClaimKey>, key: string) {
    exists k :: k in seen && k.key == key
  }

  /** An outbox id keeps its key, also when a late replay stores the item again. */
  ghost predicate ItemsOk(outbox: map<nat, Item>, calls: map<nat, Call>, items: map<nat, string>, next: nat) {
    && (forall i :: i in items ==> i < next)
    && (forall i :: i in outbox ==> i in items && items[i] == outbox[i].key)
    && (forall c ::
        c in calls && calls[c].origin.Replay? ==>
            calls[c].origin.item in items && items[calls[c].origin.item] == calls[c].key)
  }

  ghost predicate QueuedOk(queued: set<string>, outbox: map<nat, Item>, seen: set<ClaimKey>, discarded: set<string>) {
    forall k :: k in queued ==> (exists i :: i in outbox && outbox[i].key == k) || SeenKey(seen, k) || k in discarded
  }

  ghost predicate DeletingOk(calls: map<nat, Call>, seen: set<ClaimKey>) {
    forall c :: c in calls && calls[c].phase.Deleting? ==> SeenKey(seen, calls[c].key)
  }

  ghost predicate Kept(s: System) {
    && SeenOk(s.seen, s.server.answers)
    && ItemsOk(s.outbox, s.calls, s.items, s.next)
    && QueuedOk(s.queued, s.outbox, s.seen, s.discarded)
    && DeletingOk(s.calls, s.seen)
  }

  lemma SendKept(s: System, c: nat, call: Call, key: string)
    requires Kept(s)
    requires call.origin.Replay? ==> call.origin.item in s.items && s.items[call.origin.item] == key
    ensures Kept(Send(s, c, call, key))
  {
  }

  lemma EnqueueKept(s: System, key: string, write: Write)
    requires Kept(s)
    ensures Kept(Enqueue(s, key, write))
  {
    var t := Enqueue(s, key, write);
    forall k | k in t.queued
      ensures (exists i :: i in t.outbox && t.outbox[i].key == k) || SeenKey(t.seen, k) || k in t.discarded
    {
      if k == key {
        assert s.next in t.outbox;
      } else if i :| i in s.outbox && s.outbox[i].key == k {
        assert i in t.outbox && t.outbox[i].key == k;
      }
    }
  }

  lemma CallFailsKept(s: System, c: nat)
    requires Kept(s) && c in s.calls
    ensures Kept(CallFails(s, c))
  {
    hide Kept;
    EndCallKept(s, c);
    PhaseKept(s, c, PuttingBack);
  }

  lemma EndCallKept(s: System, c: nat)
    requires Kept(s)
    ensures Kept(s.(calls := s.calls - {c}))
  {
    hide SeenOk, QueuedOk;
  }

  lemma PhaseKept(s: System, c: nat, phase: CallPhase)
    requires Kept(s) && c in s.calls && (phase.Deleting? ==> SeenKey(s.seen, s.calls[c].key))
    ensures Kept(s.(calls := s.calls[c := s.calls[c].(phase := phase)]))
  {
    hide SeenOk, QueuedOk, SeenKey;
  }

  /** One more key was answered success. */
  lemma SeesKept(s: System, answer: Answer)
    requires Kept(s) && answer in s.server.answers && answer.code == Success
    ensures Kept(s.(seen := s.seen + {ClaimOf(answer.req)}))
    ensures SeenKey(s.seen + {ClaimOf(answer.req)}, answer.req.key)
  {
    hide ItemsOk;
    var seen := s.seen + {ClaimOf(answer.req)};
    assert ClaimOf(answer.req) in seen;
    forall k | SeenKey(s.seen, k) ensures SeenKey(seen, k) {
      var x :| x in s.seen && x.key == k;
      assert x in seen;
    }
  }

  lemma ReceivedKept(s: System, c: nat, answer: Answer, canRefresh: bool)
    requires Kept(s) && IsWaiting(s, c) && answer in s.server.answers && answer.req.key == s.calls[c].key
    ensures Kept(Received(s, c, answer, canRefresh))
  {
    hide Kept, CallFails, SeenKey;
    if answer.code == Success {
      SeesKept(s, answer);
      var t := s.(seen := s.seen + {ClaimOf(answer.req)});
      EndCallKept(t, c);
      PhaseKept(t, c, Deleting);
    } else {
      PhaseKept(s, c, Refreshing(s.calls[c].phase.msg));
      CallFailsKept(s, c);
    }
  }

  lemma ReceiveKept(retention: int, s: System, c: nat, i: nat, canRefresh: bool)
    requires Kept(s) && Traced(s) && Possible(retention, s, Receive(c, i, canRefresh))
    requires WaitsFor(s.calls, s.sent, c)
    ensures Kept(Do(retention, s, Receive(c, i, canRefresh)))
  {
    hide Kept, InboxOk, TxsSent, EffectsSent, NoEffectOf401, Do, Possible, Received;
    ReceiveDoes(retention, s, c, i, canRefresh);
    assert s.server.answers[i] in s.server.answers;
    ReceivedKept(s, c, s.server.answers[i], canRefresh);
  }

  lemma SettleKept(retention: int, s: System, c: nat)
    requires Kept(s) && KeysOk(s) && Possible(retention, s, Settle(c))
    ensures Kept(Do(retention, s, Settle(c)))
  {
    hide Kept, KeysOk, Do, Possible, Settled;
    SettleDoes(retention, s, c);
    CallOfOwned(s, c);
    SettledKept(s, c);
  }

  lemma SettledKept(s: System, c: nat)
    requires Kept(s) && c in s.calls && CallOwned(s.owner, s.calls[c])
    requires s.calls[c].phase.PuttingBack? || s.calls[c].phase.Deleting?
    ensures Kept(Settled(s, c))
  {
    hide SeenOk, QueuedOk, ItemsOk, DeletingOk, Settled;
    SettledQueued(s, c);
    SettledItems(s, c);
    SettledFrame(s, c);
    SettledCalls(s, c);
  }

  lemma SettledItems(s: System, c: nat)
    requires ItemsOk(s.outbox, s.calls, s.items, s.next) && c in s.calls && CallOwned(s.owner, s.calls[c])
    ensures var t := Settled(s, c); ItemsOk(t.outbox, t.calls, s.items, s.next)
  {
    hide ItemsOk;
    ItemKeys(s);
    EndItems(s, c);
    if s.calls[c].origin.Replay? {
      PutBackItems(s.outbox, s.calls - {c}, s.items, s.next, s.calls[c].origin.item, PutBack(s.calls[c].origin.copy));
    }
  }

  lemma EndItems(s: System, c: nat)
    requires ItemsOk(s.outbox, s.calls, s.items, s.next)
    ensures ItemsOk(s.outbox, s.calls - {c}, s.items, s.next)
  {
  }

  lemma PutBackItems(outbox: map<nat, Item>, calls: map<nat, Call>, items: map<nat, string>, next: nat, i: nat,
                     item: Item)
    requires ItemsOk(outbox, calls, items, next) && i in items && items[i] == item.key
    ensures ItemsOk(outbox[i := item], calls, items, next) && ItemsOk(outbox - {i}, calls, items, next)
  {
  }

  lemma SettledCalls(s: System, c: nat)
    requires DeletingOk(s.calls, s.seen) && c in s.calls
    ensures DeletingOk(Settled(s, c).calls, s.seen)
  {
    hide SeenKey;
  }

  /** An item leaves the outbox by a replay only after its key was answered success. */
  lemma SettledQueued(s: System, c: nat)
    requires ItemsOk(s.outbox, s.calls, s.items, s.next) && DeletingOk(s.calls, s.seen) && c in s.calls
    requires QueuedOk(s.queued, s.outbox, s.seen, s.discarded) && CallOwned(s.owner, s.calls[c])
    requires s.calls[c].phase.PuttingBack? || s.calls[c].phase.Deleting?
    ensures QueuedOk(s.queued, Settled(s, c).outbox, s.seen, s.discarded)
  {
    hide SeenKey;
    var outbox, call := Settled(s, c).outbox, s.calls[c];
    forall k | k in s.queued
      ensures (exists i :: i in outbox && outbox[i].key == k) || SeenKey(s.seen, k) || k in s.discarded
    {
      if i :| i in s.outbox && s.outbox[i].key == k {
        if call.origin.Replay? && i == call.origin.item {
          assert k == call.key;
          if call.phase.PuttingBack? { assert outbox[i].key == k; }
        } else {
          assert i in outbox && outbox[i].key == k;
        }
      }
    }
  }

  lemma DiscardKept(retention: int, s: System, e: Event)
    requires Kept(s) && Possible(retention, s, e) && (e.Discard? || e.Clear?)
    ensures Kept(Do(retention, s, e))
  {
    hide SeenOk;
    var t := Do(retention, s, e);
    forall k | k in t.queued
      ensures (exists i :: i in t.outbox && t.outbox[i].key == k) || SeenKey(t.seen, k) || k in t.discarded
    {
      if i :| i in s.outbox && s.outbox[i].key == k {
        if i in t.outbox { assert t.outbox[i].key == k; } else { assert k in t.discarded; }
      }
    }
  }

  /** A call that waits has sent the message it waits for. */
  ghost predicate WaitsOk(calls: map<nat, Call>, sent: map<nat, Request>) {
    forall c :: c in calls && (calls[c].phase.Waiting? || calls[c].phase.Refreshing?) ==>
      calls[c].phase.msg in sent && sent[calls[c].phase.msg].key == calls[c].key
  }

  lemma SendWaits(s: System, c: nat, call: Call, key: string)
    requires WaitsOk(s.calls, s.sent) && Traced(s)
    ensures var t := Send(s, c, call, key); WaitsOk(t.calls, t.sent)
  {
    hide InboxOk, TxsSent, AnswersSent, EffectsSent, NoEffectOf401;
  }

  lemma PhaseWaits(calls: map<nat, Call>, sent: map<nat, Request>, c: nat, phase: CallPhase)
    requires WaitsOk(calls, sent) && c in calls
    requires phase.PuttingBack? || phase.Deleting?
             || (calls[c].phase.Waiting? && phase == Refreshing(calls[c].phase.msg))
    ensures WaitsOk(calls[c := calls[c].(phase := phase)], sent) && WaitsOk(calls - {c}, sent)
  {
  }

  lemma SubmitWaits(retention: int, s: System, key: string, write: Write)
    requires WaitsOk(s.calls, s.sent) && Traced(s) && Possible(retention, s, Submit(key, write))
    ensures var t := Do(retention, s, Submit(key, write)); WaitsOk(t.calls, t.sent)
  {
    hide WaitsOk, Traced;
    SendWaitsNext(s, Call(s.next, Direct, key, write, false, PuttingBack), key);
  }

  lemma StartReplayWaits(retention: int, s: System, i: nat)
    requires WaitsOk(s.calls, s.sent) && Traced(s) && Possible(retention, s, StartReplay(i))
    ensures var t := Do(retention, s, StartReplay(i)); WaitsOk(t.calls, t.sent)
  {
    hide WaitsOk, Traced;
    SendWaitsNext(s, ReplayCall(s, i), s.outbox[i].key);
  }

  lemma RefreshOkWaits(retention: int, s: System, c: nat, key: string)
    requires WaitsOk(s.calls, s.sent) && Traced(s) && Possible(retention, s, RefreshOk(c, key))
    ensures var t := Do(retention, s, RefreshOk(c, key)); WaitsOk(t.calls, t.sent)
  {
    hide WaitsOk, Traced;
    SendWaits(s, c, s.calls[c].(retried := true), if s.calls[c].origin.Replay? then s.calls[c].key else key);
  }

  lemma QuietWaits(retention: int, s: System, e: Event)
    requires WaitsOk(s.calls, s.sent) && Possible(retention, s, e) && Quiet(e)
    ensures var t := Do(retention, s, e); WaitsOk(t.calls, t.sent)
  {
    hide WaitsOk, Keys, Apply, Enabled, UsedId, Received, Settled;
    match e
    case NetworkFails(c) => PhaseWaits(s.calls, s.sent, c, PuttingBack);
    case Receive(c, i, canRefresh) =>
      hide Do, Possible;
      ReceiveDoes(retention, s, c, i, canRefresh);
      ReceivedWaits(s, c, s.server.answers[i], canRefresh);
    case RefreshFails(c) => PhaseWaits(s.calls, s.sent, c, PuttingBack);
    case Settle(c) =>
      hide Do, Possible;
      SettleDoes(retention, s, c);
      SettledWaits(s, c);
    case _ =>
  }

  lemma ReceivedWaits(s: System, c: nat, answer: Answer, canRefresh: bool)
    requires WaitsOk(s.calls, s.sent) && IsWaiting(s, c)
    ensures var t := Received(s, c, answer, canRefresh); WaitsOk(t.calls, t.sent)
  {
    hide WaitsOk;
    PhaseWaits(s.calls, s.sent, c, PuttingBack);
    PhaseWaits(s.calls, s.sent, c, Deleting);
    PhaseWaits(s.calls, s.sent, c, Refreshing(s.calls[c].phase.msg));
  }

  lemma SettledWaits(s: System, c: nat)
    requires WaitsOk(s.calls, s.sent) && c in s.calls
    ensures var t := Settled(s, c); WaitsOk(t.calls, t.sent)
  {
    hide WaitsOk;
    PhaseWaits(s.calls, s.sent, c, PuttingBack);
  }

  lemma HappensWaits(retention: int, s: System, e: Event)
    requires WaitsOk(s.calls, s.sent) && Traced(s)
    ensures WaitsOk(Happens(retention, s, e).calls, Happens(retention, s, e).sent)
  {
    hide WaitsOk, Traced, Apply, Enabled;
    if Possible(retention, s, e) {
      match e
      case Submit(key, write) => hide Do; SubmitWaits(retention, s, key, write);
      case StartReplay(i) => hide Do; StartReplayWaits(retention, s, i);
      case RefreshOk(c, key) => hide Do; RefreshOkWaits(retention, s, c, key);
      case ServerDoes(_) =>
      case Deliver(_) =>
      case Unauthorize(_) =>
      case Lose(_) =>
      case _ => hide Do; QuietWaits(retention, s, e);
    }
  }

  /** As SendWaits, for a new call: its own id is taken before the message's. */
  lemma SendWaitsNext(s: System, call: Call, key: string)
    requires WaitsOk(s.calls, s.sent) && Traced(s)
    ensures var t := Send(s.(next := s.next + 1), s.next, call, key); WaitsOk(t.calls, t.sent)
  {
    hide InboxOk, TxsSent, AnswersSent, EffectsSent, NoEffectOf401;
  }

  lemma AnswersGrowKept(s: System, server: Server)
    requires Kept(s) && s.server.answers <= server.answers
    ensures Kept(s.(server := server))
  {
    forall k | k in s.seen ensures exists a :: a in server.answers && a.code == Success && ClaimOf(a.req) == k {
      var a :| a in s.server.answers && a.code == Success && ClaimOf(a.req) == k;
      assert a in server.answers;
    }
  }

  lemma NextIdKept(s: System)
    requires Kept(s)
    ensures Kept(s.(next := s.next + 1))
  {
  }

  lemma ItemKeys(s: System)
    requires ItemsOk(s.outbox, s.calls, s.items, s.next)
    ensures forall i :: i in s.outbox ==> i in s.items && s.items[i] == s.outbox[i].key
    ensures forall c :: c in s.calls && s.calls[c].origin.Replay? ==>
              s.calls[c].origin.item in s.items && s.items[s.calls[c].origin.item] == s.calls[c].key
  {
  }

  lemma SubmitKept(retention: int, s: System, key: string, write: Write)
    requires Kept(s) && Possible(retention, s, Submit(key, write))
    ensures Kept(Do(retention, s, Submit(key, write)))
  {
    hide SeenOk, QueuedOk, DeletingOk, ItemsOk;
    NextIdKept(s);
    SendKept(s.(next := s.next + 1), s.next, Call(s.next, Direct, key, write, false, PuttingBack), key);
  }

  lemma StartReplayKept(retention: int, s: System, i: nat)
    requires Kept(s) && Possible(retention, s, StartReplay(i))
    ensures Kept(Do(retention, s, StartReplay(i)))
  {
    hide SeenOk, QueuedOk, DeletingOk, ItemsOk;
    ItemKeys(s);
    NextIdKept(s);
    SendKept(s.(next := s.next + 1), s.next, ReplayCall(s, i), s.outbox[i].key);
  }

  lemma RefreshOkKept(retention: int, s: System, c: nat, key: string)
    requires Kept(s) && Possible(retention, s, RefreshOk(c, key))
    ensures Kept(Do(retention, s, RefreshOk(c, key)))
  {
    hide SeenOk, QueuedOk, DeletingOk, ItemsOk;
    ItemKeys(s);
    var call := s.calls[c].(retried := true);
    SendKept(s, c, call, if call.origin.Replay? then call.key else key);
  }

  lemma NetworkFailsKept(retention: int, s: System, c: nat)
    requires Kept(s) && Possible(retention, s, NetworkFails(c))
    ensures Kept(Do(retention, s, NetworkFails(c)))
  {
    hide Kept;
    EnqueueKept(s, s.calls[c].key, s.calls[c].write);
    CallFailsKept(Enqueue(s, s.calls[c].key, s.calls[c].write), c);
  }

  lemma ServerDoesKept(retention: int, s: System, a: Step)
    requires Kept(s) && Possible(retention, s, ServerDoes(a))
    ensures Kept(Do(retention, s, ServerDoes(a)))
  {
    hide Kept;
    ServerFrame(retention, s.server, a);
    hide Apply, Enabled;
    AnswersGrowKept(s, Apply(retention, s.server, a));
  }

  lemma ElseKept(retention: int, s: System, e: Event)
    requires Kept(s) && Possible(retention, s, e) && (e.Lose? || e.RefreshFails? || e.SwitchTenant? || e.SwitchActor?)
    ensures Kept(Do(retention, s, e))
  {
    hide SeenOk, QueuedOk, DeletingOk, ItemsOk;
    if e.RefreshFails? { CallFailsKept(s, e.call); }
  }

  /** No write is dropped from the outbox unsettled, whatever event comes. */
  lemma HappensKept(retention: int, s: System, e: Event)
    requires Kept(s) && Traced(s) && KeysOk(s) && WaitsOk(s.calls, s.sent)
    ensures Kept(Happens(retention, s, e))
  {
    hide Kept, Traced, KeysOk, WaitsOk, WaitsFor, Do, Possible;
    if Possible(retention, s, e) {
      match e
      case ServerDoes(a) => ServerDoesKept(retention, s, a);
      case Deliver(m) => ArrivalKept(retention, s, e);
      case Unauthorize(m) => ArrivalKept(retention, s, e);
      case Submit(key, write) => SubmitKept(retention, s, key, write);
      case StartReplay(i) => StartReplayKept(retention, s, i);
      case RefreshOk(c, key) => RefreshOkKept(retention, s, c, key);
      case NetworkFails(c) => NetworkFailsKept(retention, s, c);
      case Receive(c, i, canRefresh) =>
        ReceiveDoes(retention, s, c, i, canRefresh);
        WaitingWaits(s, c);
        ReceiveKept(retention, s, c, i, canRefresh);
      case Settle(c) => SettleKept(retention, s, c);
      case Discard(_) => DiscardKept(retention, s, e);
      case Clear => DiscardKept(retention, s, e);
      case _ => ElseKept(retention, s, e);
    }
  }

  predicate WaitsFor(calls: map<nat, Call>, sent: map<nat, Request>, c: nat) {
    c in calls && calls[c].phase.Waiting? && calls[c].phase.msg in sent && sent[calls[c].phase.msg].key == calls[c].key
  }

  lemma WaitingWaits(s: System, c: nat)
    requires WaitsOk(s.calls, s.sent) && IsWaiting(s, c)
    ensures WaitsFor(s.calls, s.sent, c)
  {
  }

  lemma ArrivalKept(retention: int, s: System, e: Event)
    requires Kept(s) && Possible(retention, s, e) && (e.Deliver? || e.Unauthorize?)
    ensures Kept(Do(retention, s, e))
  {
    hide SeenOk, QueuedOk, DeletingOk, ItemsOk;
    AnswersGrowKept(s, Do(retention, s, e).server);
  }
}
