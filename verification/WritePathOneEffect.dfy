// A user's write keeps at most one live key, also when a 401 retry mints another.
module WritePathOneEffect {
  import opened IdempotencyServer
  import opened WritePath
  import opened WritePathTrace

  /** A key given up after a 401 has had no effect and can have none any more. */
  ghost predicate RetiredSent(retired: set<string>, sent: map<nat, Request>, inbox: map<nat, Request>, server: Server) {
    forall m :: m in sent && sent[m].key in retired ==>
      m !in inbox && m !in server.txs && forall e :: e in server.effects ==> e.id != m
  }

  ghost predicate RetiredGone(retired: set<string>, outbox: map<nat, Item>, calls: map<nat, Call>) {
    && (forall i :: i in outbox ==> outbox[i].key !in retired)
    && (forall c :: c in calls ==> calls[c].key !in retired)
  }

  /** The key of a direct call is its own: one message, no item, no other call. */
  predicate InFlight(c: Call) {
    c.phase.Waiting? || c.phase.Refreshing?
  }

  ghost predicate SoloCall(c: nat, call: Call, calls: map<nat, Call>, outbox: map<nat, Item>, sent: map<nat, Request>) {
    && InFlight(call)
    && (forall m :: m in sent && sent[m].key == call.key ==> m == call.phase.msg)
    && (forall i :: i in outbox ==> outbox[i].key != call.key)
    && (forall d :: d in calls && d != c ==> calls[d].key != call.key)
  }

  ghost predicate Solo(calls: map<nat, Call>, outbox: map<nat, Item>, sent: map<nat, Request>) {
    forall c :: c in calls && calls[c].origin.Direct? ==> SoloCall(c, calls[c], calls, outbox, sent)
  }

  ghost predicate Refused(calls: map<nat, Call>, answers: seq<Answer>) {
    forall c :: c in calls && calls[c].phase.Refreshing? ==>
      exists a :: a in answers && a.id == calls[c].phase.msg && a.code == Unauthorized
  }

  /** A write has one key that is not given up. */
  ghost predicate OneKey(owner: map<string, Owner>, retired: set<string>, next: nat) {
    && (forall k :: k in owner ==> owner[k].user < next)
    && (forall k :: k in retired ==> k in owner)
    && (forall k, l | k in owner && l in owner && k !in retired && l !in retired && owner[k].user == owner[l].user ::
        k == l)
  }

  ghost predicate DirectOwned(owner: map<string, Owner>, calls: map<nat, Call>) {
    forall c :: c in calls && calls[c].origin.Direct? ==>
        calls[c].key in owner && owner[calls[c].key].user == calls[c].user
  }

  ghost predicate OneEach(s: System) {
    && RetiredSent(s.retired, s.sent, s.inbox, s.server)
    && RetiredGone(s.retired, s.outbox, s.calls)
    && Solo(s.calls, s.outbox, s.sent)
    && Refused(s.calls, s.server.answers)
    && OneKey(s.owner, s.retired, s.next)
    && DirectOwned(s.owner, s.calls)
    && (forall c :: c in s.calls ==> c < s.next)
  }

  lemma DropCallOne(s: System, c: nat)
    requires OneEach(s)
    ensures OneEach(s.(calls := s.calls - {c}))
  {
    forall d | d in s.calls && d != c && s.calls[d].origin.Direct?
      ensures SoloCall(d, s.calls[d], s.calls - {c}, s.outbox, s.sent)
    {
      assert SoloCall(d, s.calls[d], s.calls, s.outbox, s.sent);
    }
  }

  lemma RephaseOne(s: System, c: nat, phase: CallPhase)
    requires OneEach(s) && c in s.calls
    requires if phase.Refreshing? then s.calls[c].phase == Waiting(phase.msg)
                    && exists a :: a in s.server.answers && a.id == phase.msg && a.code == Unauthorized
             else s.calls[c].origin.Replay? && !phase.Waiting?
    ensures OneEach(s.(calls := s.calls[c := s.calls[c].(phase := phase)]))
  {
    var calls := s.calls[c := s.calls[c].(phase := phase)];
    forall d | d in calls && calls[d].origin.Direct? ensures SoloCall(d, calls[d], calls, s.outbox, s.sent) {
      assert SoloCall(d, s.calls[d], s.calls, s.outbox, s.sent);
    }
  }

  lemma PutItemOne(s: System, i: nat, item: Item)
    requires OneEach(s) && item.key !in s.retired
    requires forall c :: c in s.calls && s.calls[c].origin.Direct? ==> s.calls[c].key != item.key
    ensures OneEach(s.(outbox := s.outbox[i := item]))
  {
    forall d | d in s.calls && s.calls[d].origin.Direct?
      ensures SoloCall(d, s.calls[d], s.calls, s.outbox[i := item], s.sent)
    {
      assert SoloCall(d, s.calls[d], s.calls, s.outbox, s.sent);
    }
  }

  lemma TakeItemsOne(s: System, outbox: map<nat, Item>)
    requires OneEach(s) && forall i :: i in outbox ==> i in s.outbox && s.outbox[i] == outbox[i]
    ensures OneEach(s.(outbox := outbox))
  {
    forall d | d in s.calls && s.calls[d].origin.Direct? ensures SoloCall(d, s.calls[d], s.calls, outbox, s.sent) {
      assert SoloCall(d, s.calls[d], s.calls, s.outbox, s.sent);
    }
  }

  /** Sending a replay: its key is in use, but by no direct call. */
  lemma SendReplayOne(s: System, c: nat, call: Call)
    requires OneEach(s) && call.origin.Replay? && call.key !in s.retired
    requires c in s.calls ==> s.calls[c].origin.Replay?
    requires forall d :: d in s.calls && s.calls[d].origin.Direct? ==> s.calls[d].key != call.key
    requires c < s.next
    ensures OneEach(Send(s, c, call, call.key))
  {
    var t := Send(s, c, call, call.key);
    forall d | d in t.calls && t.calls[d].origin.Direct? ensures SoloCall(d, t.calls[d], t.calls, t.outbox, t.sent) {
      assert SoloCall(d, s.calls[d], s.calls, s.outbox, s.sent);
    }
  }

  /** Sending a direct call under a key that occurs nowhere. */
  lemma SendDirectOne(s: System, c: nat, call: Call, key: string)
    requires OneEach(s) && call.origin.Direct? && key !in s.retired && c !in s.calls && c < s.next
    requires key in s.owner && s.owner[key].user == call.user
    requires forall m :: m in s.sent ==> s.sent[m].key != key
    requires forall i :: i in s.outbox ==> s.outbox[i].key != key
    requires forall d :: d in s.calls ==> s.calls[d].key != key
    ensures OneEach(Send(s, c, call, key))
  {
    var t := Send(s, c, call, key);
    assert SoloCall(c, t.calls[c], t.calls, t.outbox, t.sent);
    forall d | d in t.calls && d != c && t.calls[d].origin.Direct?
      ensures SoloCall(d, t.calls[d], t.calls, t.outbox, t.sent)
    {
      assert SoloCall(d, s.calls[d], s.calls, s.outbox, s.sent);
    }
  }

  lemma MintOne(s: System, key: string, o: Owner)
    requires OneEach(s) && key !in s.owner && o.user < s.next
    requires forall k :: k in s.owner && k !in s.retired ==> s.owner[k].user != o.user
    ensures OneEach(s.(owner := s.owner[key := o]))
  {
  }

  lemma NextIdOne(s: System)
    requires OneEach(s)
    ensures OneEach(s.(next := s.next + 1))
    ensures s.next !in s.calls
    ensures forall k :: k in s.owner ==> s.owner[k].user < s.next
  {
  }

  /** Every key in use was minted, so a new one occurs nowhere. */
  lemma NewKeyUnused(s: System, key: string)
    requires KeysOk(s) && key !in s.owner
    ensures forall m :: m in s.sent ==> s.sent[m].key != key
    ensures forall i :: i in s.outbox ==> s.outbox[i].key != key
    ensures forall d :: d in s.calls ==> s.calls[d].key != key
  {
    assert forall d :: d in s.calls ==> CallOwned(s.owner, s.calls[d]);
  }

  lemma RetiredMinted(s: System, k: string)
    requires OneEach(s) && k in s.retired
    ensures k in s.owner
  {
  }

  lemma SubmitOne(retention: int, s: System, key: string, write: Write)
    requires OneEach(s) && KeysOk(s) && Possible(retention, s, Submit(key, write))
    ensures OneEach(Do(retention, s, Submit(key, write)))
  {
    hide OneEach, KeysOk, Enabled, UsedId;
    NewKeyUnused(s, key);
    if key in s.retired { RetiredMinted(s, key); }
    NextIdOne(s);
    var minted := s.(next := s.next + 1, owner := s.owner[key := Owner(s.next, write)]);
    MintOne(s.(next := s.next + 1), key, Owner(s.next, write));
    SendDirectOne(minted, s.next, Call(s.next, Direct, key, write, false, PuttingBack), key);
  }

  lemma ItemKeyFree(s: System, i: nat)
    requires OneEach(s) && i in s.outbox
    ensures s.outbox[i].key !in s.retired
    ensures forall d :: d in s.calls && s.calls[d].origin.Direct? ==> s.calls[d].key != s.outbox[i].key
    ensures s.next !in s.calls
  {
    assert forall d :: d in s.calls && s.calls[d].origin.Direct? ==> SoloCall(d, s.calls[d], s.calls, s.outbox, s.sent);
  }

  lemma StartReplayOne(retention: int, s: System, i: nat)
    requires OneEach(s) && Possible(retention, s, StartReplay(i))
    ensures OneEach(Do(retention, s, StartReplay(i)))
  {
    hide OneEach, Enabled, UsedId;
    ItemKeyFree(s, i);
    NextIdOne(s);
    SendReplayOne(s.(next := s.next + 1), s.next, ReplayCall(s, i));
  }

  /** The key of a live call is not given up, and no other direct call has it. */
  lemma CallKeyFree(s: System, c: nat)
    requires OneEach(s) && c in s.calls
    ensures s.calls[c].key !in s.retired && c < s.next
    ensures forall d :: d in s.calls && d != c && s.calls[d].origin.Direct? ==> s.calls[d].key != s.calls[c].key
    ensures s.calls[c].origin.Direct? ==> SoloCall(c, s.calls[c], s.calls, s.outbox, s.sent)
  {
    forall d | d in s.calls && d != c && s.calls[d].origin.Direct? ensures s.calls[d].key != s.calls[c].key {
      assert SoloCall(d, s.calls[d], s.calls, s.outbox, s.sent);
    }
  }

  lemma CallFailsOne(s: System, c: nat)
    requires OneEach(s) && c in s.calls
    ensures OneEach(CallFails(s, c))
  {
    hide OneEach;
    if s.calls[c].origin.Direct? { DropCallOne(s, c); } else { RephaseOne(s, c, PuttingBack); }
  }

  lemma NetworkFailsOne(retention: int, s: System, c: nat)
    requires OneEach(s) && Possible(retention, s, NetworkFails(c))
    ensures OneEach(Do(retention, s, NetworkFails(c)))
  {
    hide OneEach, SoloCall, Keys, Enabled, Do, Possible, CallFails;
    NetworkFailsDoes(retention, s, c);
    CallKeyFree(s, c);
    var call := s.calls[c];
    DirectFails(s, c);
    CallFailsOne(s, c);
    var t := CallFails(s, c);
    NextIdOne(t);
    PutItemOne(t.(next := t.next + 1), s.next, Item(call.key, call.write, 0));
    HistoryOne(t.(next := t.next + 1, outbox := t.outbox[s.next := Item(call.key, call.write, 0)]),
               Do(retention, s, NetworkFails(c)));
  }

  /** The item is stored first, but the end of the call does not look at the outbox. */
  lemma NetworkFailsDoes(retention: int, s: System, c: nat)
    requires Possible(retention, s, NetworkFails(c))
    ensures c in s.calls
    ensures var call := s.calls[c];
            Do(retention, s, NetworkFails(c))
            == CallFails(s, c).(outbox := s.outbox[s.next := Item(call.key, call.write, 0)], next := s.next + 1,
                                items := s.items[s.next := call.key], queued := s.queued + {call.key})
  {
    hide Keys, Enabled, Apply;
  }

  lemma DirectFails(s: System, c: nat)
    requires c in s.calls
    ensures var t := CallFails(s, c);
            && t == s.(calls := t.calls)
            && forall d ::
                 d in t.calls && t.calls[d].origin.Direct? ==> d in s.calls && d != c && t.calls[d] == s.calls[d]
  {
  }

  /** The remaining history fields do not matter here. */
  lemma HistoryOne(s: System, t: System)
    requires OneEach(s)
    requires t == s.(items := t.items, queued := t.queued, seen := t.seen, discarded := t.discarded,
                     tenant := t.tenant, actor := t.actor)
    ensures OneEach(t)
  {
  }

  lemma ReceiveOne(retention: int, s: System, c: nat, i: nat, canRefresh: bool)
    requires OneEach(s) && Possible(retention, s, Receive(c, i, canRefresh))
    ensures OneEach(Do(retention, s, Receive(c, i, canRefresh)))
  {
    hide OneEach;
    var call, answer := s.calls[c], s.server.answers[i];
    if answer.code == Success {
      var t := if call.origin.Direct? then s.(calls := s.calls - {c})
               else s.(calls := s.calls[c := call.(phase := Deleting)]);
      if call.origin.Direct? { DropCallOne(s, c); } else { RephaseOne(s, c, Deleting); }
      HistoryOne(t, Do(retention, s, Receive(c, i, canRefresh)));
    } else if answer.code == Unauthorized && !call.retried && canRefresh {
      assert answer in s.server.answers;
      RephaseOne(s, c, Refreshing(call.phase.msg));
    } else {
      CallFailsOne(s, c);
    }
  }

  lemma RetireOne(s: System, key: string)
    requires OneEach(s) && key in s.owner
    requires forall m :: m in s.sent && s.sent[m].key == key ==>
               m !in s.inbox && m !in s.server.txs && forall e :: e in s.server.effects ==> e.id != m
    requires forall i :: i in s.outbox ==> s.outbox[i].key != key
    requires forall d :: d in s.calls ==> s.calls[d].key != key
    ensures OneEach(s.(retired := s.retired + {key}))
  {
  }

  /** After the 401 the old key is dead: its only message was refused, so nothing can come of it. */
  lemma RefusedMessageDead(s: System, c: nat, m: nat)
    requires OneEach(s) && Traced(s) && IsRefreshing(s, c) && s.calls[c].origin.Direct?
    requires m in s.sent && s.sent[m].key == s.calls[c].key
    ensures m !in s.inbox && m !in s.server.txs && forall e :: e in s.server.effects ==> e.id != m
  {
    assert SoloCall(c, s.calls[c], s.calls, s.outbox, s.sent);
    assert m == s.calls[c].phase.msg;
    var a :| a in s.server.answers && a.id == m && a.code == Unauthorized;
    assert UsedId(s.server, m);
  }

  lemma OneKeyOf(s: System, c: nat)
    requires OneEach(s) && c in s.calls && s.calls[c].origin.Direct?
    ensures s.calls[c].key in s.owner && s.owner[s.calls[c].key].user == s.calls[c].user && s.calls[c].user < s.next
    ensures forall k :: k in s.owner && k !in s.retired && s.owner[k].user == s.calls[c].user ==> k == s.calls[c].key
  {
    assert s.calls[c].key !in s.retired;
  }

  lemma RefreshReplayOne(retention: int, s: System, c: nat, key: string)
    requires OneEach(s) && Possible(retention, s, RefreshOk(c, key)) && s.calls[c].origin.Replay?
    ensures OneEach(Do(retention, s, RefreshOk(c, key)))
  {
    hide OneEach, SoloCall, Enabled, UsedId;
    CallKeyFree(s, c);
    SendReplayOne(s, c, s.calls[c].(retried := true));
  }

  lemma RetireCallKey(s: System, c: nat)
    requires OneEach(s) && Traced(s) && IsRefreshing(s, c) && s.calls[c].origin.Direct?
    ensures OneEach(s.(calls := s.calls - {c}, retired := s.retired + {s.calls[c].key}))
  {
    hide OneEach, Traced;
    var key := s.calls[c].key;
    CallKeyFree(s, c);
    OneKeyOf(s, c);
    forall m | m in s.sent && s.sent[m].key == key
      ensures m !in s.inbox && m !in s.server.txs && forall e :: e in s.server.effects ==> e.id != m
    {
      RefusedMessageDead(s, c, m);
    }
    DropCallOne(s, c);
    RetireOne(s.(calls := s.calls - {c}), key);
  }

  lemma RefreshDirectOne(retention: int, s: System, c: nat, key: string)
    requires OneEach(s) && KeysOk(s) && Traced(s) && Possible(retention, s, RefreshOk(c, key))
             && s.calls[c].origin.Direct?
    ensures OneEach(Do(retention, s, RefreshOk(c, key)))
  {
    hide OneEach, KeysOk, Traced, SoloCall, Enabled, UsedId;
    var call := s.calls[c].(retried := true);
    CallKeyFree(s, c);
    NewKeyUnused(s, key);
    if key in s.retired { RetiredMinted(s, key); }
    OneKeyOf(s, c);
    RetireCallKey(s, c);
    var retired := s.(calls := s.calls - {c}, retired := s.retired + {call.key});
    MintOne(retired, key, Owner(call.user, call.write));
    var minted := retired.(owner := s.owner[key := Owner(call.user, call.write)]);
    SendDirectOne(minted, c, call, key);
    assert minted.calls[c := call.(key := key, phase := Waiting(s.next))]
           == s.calls[c := call.(key := key, phase := Waiting(s.next))];
  }

  lemma RefreshOkOne(retention: int, s: System, c: nat, key: string)
    requires OneEach(s) && KeysOk(s) && Traced(s) && Possible(retention, s, RefreshOk(c, key))
    ensures OneEach(Do(retention, s, RefreshOk(c, key)))
  {
    hide OneEach, KeysOk, Traced, Do;
    if s.calls[c].origin.Replay? {
      RefreshReplayOne(retention, s, c, key);
    } else {
      RefreshDirectOne(retention, s, c, key);
    }
  }

  lemma SettleOne(retention: int, s: System, c: nat)
    requires OneEach(s) && KeysOk(s) && Possible(retention, s, Settle(c))
    ensures OneEach(Do(retention, s, Settle(c)))
  {
    hide OneEach, KeysOk, SoloCall, Do, Possible;
    SettleDoes(retention, s, c);
    CallKeyFree(s, c);
    CallOfOwned(s, c);
    DropCallOne(s, c);
    var call, t := s.calls[c], s.(calls := s.calls - {c});
    if call.origin.Replay? {
      if call.phase.Deleting? {
        TakeItemsOne(t, t.outbox - {call.origin.item});
      } else {
        ItemPutBack(s, c);
      }
    }
  }

  lemma ItemPutBack(s: System, c: nat)
    requires c in s.calls && s.calls[c].origin.Replay? && OneEach(s.(calls := s.calls - {c}))
    requires s.calls[c].origin.copy.key !in s.retired
    requires forall d ::
               d in s.calls && d != c && s.calls[d].origin.Direct? ==> s.calls[d].key != s.calls[c].origin.copy.key
    ensures var call := s.calls[c];
            OneEach(s.(calls := s.calls - {c}, outbox := s.outbox[call.origin.item := PutBack(call.origin.copy)]))
  {
    hide OneEach;
    var call := s.calls[c];
    PutItemOne(s.(calls := s.calls - {c}), call.origin.item, PutBack(call.origin.copy));
  }

  lemma DiscardOne(retention: int, s: System, e: Event)
    requires OneEach(s) && Possible(retention, s, e) && (e.Discard? || e.Clear? || e.SwitchTenant? || e.SwitchActor?)
    ensures OneEach(Do(retention, s, e))
  {
    hide OneEach;
    var t := Do(retention, s, e);
    TakeItemsOne(s, t.outbox);
    HistoryOne(s.(outbox := t.outbox), t);
  }

  lemma AnswersKeepRefused(calls: map<nat, Call>, answers: seq<Answer>, more: seq<Answer>)
    requires Refused(calls, answers) && answers <= more
    ensures Refused(calls, more)
  {
    forall c | c in calls && calls[c].phase.Refreshing?
      ensures exists x :: x in more && x.id == calls[c].phase.msg && x.code == Unauthorized
    {
      var x :| x in answers && x.id == calls[c].phase.msg && x.code == Unauthorized;
      assert x in more;
    }
  }

  lemma ServerDoesOne(retention: int, s: System, a: Step)
    requires OneEach(s) && Possible(retention, s, ServerDoes(a))
    ensures OneEach(Do(retention, s, ServerDoes(a)))
  {
    hide Apply, Enabled, Solo, OneKey, DirectOwned, RetiredGone, Refused;
    ServerFrame(retention, s.server, a);
    var t := Do(retention, s, ServerDoes(a)).server;
    var done := t.effects[|s.server.effects|..];
    assert t.effects == s.server.effects + done;
    AnswersKeepRefused(s.calls, s.server.answers, t.answers);
  }

  lemma ArrivalOne(retention: int, s: System, e: Event)
    requires OneEach(s) && Traced(s) && Possible(retention, s, e) && (e.Deliver? || e.Unauthorize? || e.Lose?)
    ensures OneEach(Do(retention, s, e))
  {
    hide Solo, OneKey, DirectOwned, RetiredGone, TxsSent, AnswersSent, EffectsSent, NoEffectOf401, Refused;
    var t := Do(retention, s, e);
    assert s.server.answers <= t.server.answers;
    AnswersKeepRefused(s.calls, s.server.answers, t.server.answers);
  }

  lemma HappensOne(retention: int, s: System, e: Event)
    requires OneEach(s) && KeysOk(s) && Traced(s)
    ensures OneEach(Happens(retention, s, e))
  {
    hide OneEach, KeysOk, Traced;
    if Possible(retention, s, e) {
      if e.RefreshFails? { CallFailsOne(s, e.call); }
      else {
        hide Do, Possible;
        match e
        case ServerDoes(a) => ServerDoesOne(retention, s, a);
        case Deliver(_) => ArrivalOne(retention, s, e);
        case Unauthorize(_) => ArrivalOne(retention, s, e);
        case Lose(_) => ArrivalOne(retention, s, e);
        case Submit(key, write) => SubmitOne(retention, s, key, write);
        case StartReplay(i) => StartReplayOne(retention, s, i);
        case NetworkFails(c) => NetworkFailsOne(retention, s, c);
        case Receive(c, i, canRefresh) => ReceiveOne(retention, s, c, i, canRefresh);
        case RefreshOk(c, key) => RefreshOkOne(retention, s, c, key);
        case Settle(c) => SettleOne(retention, s, c);
        case Discard(_) => DiscardOne(retention, s, e);
        case Clear => DiscardOne(retention, s, e);
        case SwitchTenant(_) => DiscardOne(retention, s, e);
        case SwitchActor(_) => DiscardOne(retention, s, e);
        case RefreshFails(_) =>
      }
    }
  }
}
