// What each event of the client does, in terms of the requests, the items and the keys alone.
module WritePathEvents {
  import opened IdempotencyServer
  import opened WritePath
  import opened WritePathTrace

  /** The write goes out as message m with the tenant and the user of this moment. */
  predicate GoesOut(s: System, t: System, m: nat, key: string, write: Write) {
    && m !in s.sent.Keys && t.inbox == s.inbox[m := Request(s.tenant, s.actor, key, write)]
    && t.sent == s.sent[m := Request(s.tenant, s.actor, key, write)]
    && t.outbox == s.outbox && t.server == s.server && t.tenant == s.tenant && t.actor == s.actor
  }

  lemma SubmitSends(retention: int, s: System, key: string, write: Write)
    requires Traced(s) && key !in s.owner
    ensures var t := Happens(retention, s, Submit(key, write));
            exists m :: GoesOut(s, t, m, key, write) && t.owner == s.owner[key := Owner(s.next, write)]
                        && t.calls == s.calls[s.next := Call(s.next, Direct, key, write, false, Waiting(m))]
  {
    hide InboxOk, TxsSent, AnswersSent, EffectsSent, NoEffectOf401, Enabled;
    assert GoesOut(s, Happens(retention, s, Submit(key, write)), s.next + 1, key, write);
  }

  lemma ReplaySends(retention: int, s: System, i: nat)
    requires Traced(s) && i in s.outbox
    ensures var t, item := Happens(retention, s, StartReplay(i)), s.outbox[i];
            exists m :: GoesOut(s, t, m, item.key, item.write) && t.owner == s.owner
                        && t.calls == s.calls[s.next := Call(s.next, Replay(i, item), item.key, item.write, false,
                                                             Waiting(m))]
  {
    hide InboxOk, TxsSent, AnswersSent, EffectsSent, NoEffectOf401, Enabled;
    assert GoesOut(s, Happens(retention, s, StartReplay(i)), s.next + 1, s.outbox[i].key, s.outbox[i].write);
  }

  /** Only the user's own removals count as such, each with the keys of the items it removes. */
  lemma UserRemoves(retention: int, s: System, e: Event)
    ensures var t := Happens(retention, s, e);
            match e
            case Discard(i) =>
              if i in s.outbox then
                t.outbox == s.outbox - {i} && t.discarded == s.discarded + {s.outbox[i].key}
              else t == s
            case Clear =>
              t.outbox == map[] && forall k :: k in t.discarded <==>
                                      k in s.discarded || exists i :: i in s.outbox && s.outbox[i].key == k
            case _ => t.discarded == s.discarded
  {
    if Possible(retention, s, e) {
      if e.Receive? {
        hide Do, Possible;
        ReceiveFrame(retention, s, e.call, e.answer, e.canRefresh);
      } else if e.RefreshFails? || e.Settle? {
        hide Do, Possible;
        EndFrame(retention, s, e.call);
      } else {
        hide Apply, Enabled, UsedId;
      }
    }
  }

  /** A network failure queues the write under its key with no retries, and nothing else does. */
  lemma FailureQueues(retention: int, s: System, e: Event)
    ensures var t := Happens(retention, s, e);
            if e.NetworkFails? && IsWaiting(s, e.call) then
              var call := s.calls[e.call];
              && t.outbox == s.outbox[s.next := Item(call.key, call.write, 0)] && t.queued == s.queued + {call.key}
            else t.queued == s.queued
  {
    if Possible(retention, s, e) {
      if e.Receive? {
        hide Do, Possible;
        ReceiveFrame(retention, s, e.call, e.answer, e.canRefresh);
      } else if e.RefreshFails? || e.Settle? {
        hide Do, Possible;
        EndFrame(retention, s, e.call);
      } else {
        hide Apply, Enabled, UsedId, Keys;
      }
    }
  }
}
