// What a replay gets from an otherwise idle server: a conflict while the claim of its key stands,
// afterwards the stored response of a recorded write and a second effect of any other.
module WritePathReplays {
  import opened Prelude
  import opened IdempotencyServer
  import opened IdempotencySession
  import opened WritePath
  import opened WritePathTrace
  import opened WritePathOutbox
  import opened WritePathOneEffect
  import opened WritePathRuns
  import opened WritePathAnswers
  import opened ExactlyOnce

  /** The request that a replay of item i sends now. */
  function ReplayRequest(s: System, i: nat): Request
    requires i in s.outbox
  {
    Request(s.tenant, s.actor, s.outbox[i].key, s.outbox[i].write)
  }

  /** A replay of item i that is served with nothing else going on, and settled. */
  function ReplayEvents(s: System, i: nat, work: Option<string>): seq<Event> {
    [StartReplay(i)] + AnswerEvents(s.next + 1, work) + [Receive(s.next, |s.server.answers|, false)] + [Settle(s.next)]
  }

  /** Where that replay leaves everything the client and the server store. */
  ghost predicate ReplayedAlone(retention: int, s: System, t: System, i: nat, work: Option<string>)
    requires i in s.outbox
  {
    var req := ReplayRequest(s, i);
    && t.server == Answered(retention, s.server, s.next + 1, req, work)
    && t.calls == s.calls && t.tenant == s.tenant && t.actor == s.actor
    && t.outbox == if Told(retention, s.server, req, work).0 == Success then s.outbox - {i}
                   else s.outbox[i := PutBack(s.outbox[i])]
  }

  lemma StartsReplay(retention: int, s: System, i: nat)
    requires i in s.outbox
    ensures Happens(retention, s, StartReplay(i))
            == Send(s.(next := s.next + 1), s.next, ReplayCall(s, i), s.outbox[i].key)
  {
    hide Enabled;
  }

  /** No message has the next id yet, anywhere. */
  lemma NextUnused(retention: int, s: System, i: nat)
    requires SystemInv(retention, s) && i in s.outbox
    ensures s.next !in s.calls && s.next + 1 !in s.sent && !UsedId(s.server, s.next + 1)
  {
    hide ClaimInv, RecordInv, KeysOk, WaitsOk, Kept;
  }

  /** A settled call that ended in this code. */
  lemma HearsAndSettles(retention: int, s: System, c: nat, answer: nat)
    requires IsWaiting(s, c) && s.calls[c].origin.Replay?
    requires answer < |s.server.answers| && s.server.answers[answer].id == s.calls[c].phase.msg
    ensures var t := Happens(retention, Happens(retention, s, Receive(c, answer, false)), Settle(c));
            var origin := s.calls[c].origin;
            && t.server == s.server && t.calls == s.calls - {c} && t.tenant == s.tenant && t.actor == s.actor
            && t.outbox == if s.server.answers[answer].code == Success then s.outbox - {origin.item}
                           else s.outbox[origin.item := PutBack(origin.copy)]
  {
    if s.server.answers[answer].code == Success {
      SucceedsAndSettles(retention, s, c, answer);
    } else {
      FailsAndSettles(retention, s, c, answer);
    }
  }

  lemma SucceedsAndSettles(retention: int, s: System, c: nat, answer: nat)
    requires IsWaiting(s, c) && s.calls[c].origin.Replay?
    requires answer < |s.server.answers| && s.server.answers[answer].id == s.calls[c].phase.msg
    requires s.server.answers[answer].code == Success
    ensures Happens(retention, Happens(retention, s, Receive(c, answer, false)), Settle(c))
            == s.(calls := s.calls - {c}, outbox := s.outbox - {s.calls[c].origin.item},
                  seen := s.seen + {ClaimOf(s.server.answers[answer].req)})
  {
    hide Happens, Received, Settled;
    ReceiveHappens(retention, s, c, answer, false);
    HearsSuccess(s, c, s.server.answers[answer]);
    var heard := Received(s, c, s.server.answers[answer], false);
    SettleHappens(retention, heard, c);
    DeletesItem(heard, c);
    assert heard.calls - {c} == s.calls - {c};
  }

  lemma FailsAndSettles(retention: int, s: System, c: nat, answer: nat)
    requires IsWaiting(s, c) && s.calls[c].origin.Replay?
    requires answer < |s.server.answers| && s.server.answers[answer].id == s.calls[c].phase.msg
    requires s.server.answers[answer].code != Success
    ensures var origin := s.calls[c].origin;
            Happens(retention, Happens(retention, s, Receive(c, answer, false)), Settle(c))
            == s.(calls := s.calls - {c}, outbox := s.outbox[origin.item := PutBack(origin.copy)])
  {
    hide Happens, Received, Settled;
    ReceiveHappens(retention, s, c, answer, false);
    HearsRefusal(s, c, s.server.answers[answer]);
    var heard := Received(s, c, s.server.answers[answer], false);
    SettleHappens(retention, heard, c);
    PutsItemBack(heard, c);
    assert heard.calls - {c} == s.calls - {c};
  }

  lemma ReplaysAlone(retention: int, s: System, i: nat, work: Option<string>)
    requires SystemInv(retention, s) && i in s.outbox && s.server.txs == map[]
    ensures ReplayedAlone(retention, s, Run(retention, s, ReplayEvents(s, i, work)), i, work)
  {
    hide Run, Happens, AnswerEvents, SystemInv, UsedId, Answered, Told;
    NextUnused(retention, s, i);
    StartsReplay(retention, s, i);
    var c, m := s.next, s.next + 1;
    var e1 := [StartReplay(i)];
    RunOne(retention, s, StartReplay(i));
    var started := Happens(retention, s, StartReplay(i));
    RunConcat(retention, s, e1, AnswerEvents(m, work));
    Answers(retention, started, m, work);
    var e2 := e1 + AnswerEvents(m, work);
    var answered := Run(retention, s, e2);
    LastAnswer(retention, s.server, m, ReplayRequest(s, i), work);
    RunPush(retention, s, e2, Receive(c, |s.server.answers|, false));
    RunPush(retention, s, e2 + [Receive(c, |s.server.answers|, false)], Settle(c));
    HearsAndSettles(retention, answered, c, |s.server.answers|);
    assert answered.calls - {c} == s.calls;
  }

  // ----- After the retention -----

  /** A stored record answers a replay with the response of the effect it was stored for. */
  lemma StoredForReplay(retention: int, s: System, i: nat)
    requires SystemInv(retention, s) && i in s.outbox && Replays(s.server, ReplayRequest(s, i))
    ensures var req := ReplayRequest(s, i);
            exists e :: e in s.server.effects && ScopeOf(e.req) == ScopeOf(req) && e.req.write == req.write
                        && s.server.records[ScopeOf(req)] == Record(req.write.hash, Some(e.response))
  {
    hide ClaimInv, WaitsOk, Kept, OneEach, InboxOk, TxsSent, AnswersSent, NoEffectOf401, CallsOwned;
    var req := ReplayRequest(s, i);
    var e :| e in s.server.effects && e.req.write.recorded && ScopeOf(e.req) == ScopeOf(req)
          && EffectRecorded(s.server.records, e);
    assert Owned(s.owner, e.req.key, e.req.write);
    assert Owned(s.owner, req.key, req.write);
  }

  /** The one answer sent meanwhile. */
  predicate Tells(s: System, t: System, req: Request, code: Code, response: string) {
    t.server.answers == s.server.answers + [Answer(s.next + 1, req, code, response)]
  }

  /** A replay whose claim no longer stands gets the stored response of a recorded write, with no
      second effect; any other write whose work succeeds takes effect again, and a failure of
      the work puts the item back. */
  lemma ReplayAfterRetention(retention: int, s: System, i: nat, work: Option<string>)
    requires SystemInv(retention, s) && i in s.outbox && s.server.txs == map[]
    requires s.outbox[i].write.guarded ==> !Taken(retention, s.server.claims, ReplayRequest(s, i), s.server.now)
    ensures var req, t := ReplayRequest(s, i), Run(retention, s, ReplayEvents(s, i, work));
            if Replays(s.server, req) then
              && t.outbox == s.outbox - {i} && t.server.effects == s.server.effects
              && exists e :: e in s.server.effects && ScopeOf(e.req) == ScopeOf(req) && e.req.write == req.write
                             && Tells(s, t, req, Success, e.response)
            else if work.Some? then
              && t.outbox == s.outbox - {i} && Tells(s, t, req, Success, work.value)
              && t.server.effects
                 == s.server.effects + [Effect(s.next + 1, req, s.server.now, s.server.now, work.value)]
            else
              && t.outbox == s.outbox[i := PutBack(s.outbox[i])] && t.server.effects == s.server.effects
              && Tells(s, t, req, Failed, "")
  {
    hide Run, ReplayEvents, SystemInv, Taken;
    ReplaysAlone(retention, s, i, work);
    LastAnswer(retention, s.server, s.next + 1, ReplayRequest(s, i), work);
    if Replays(s.server, ReplayRequest(s, i)) {
      StoredForReplay(retention, s, i);
    }
  }

  /** Before that, nobody hears anything but a conflict, and the item stays. */
  lemma ReplayWithinRetention(retention: int, s: System, i: nat, work: Option<string>)
    requires SystemInv(retention, s) && i in s.outbox && s.server.txs == map[] && s.outbox[i].write.guarded
    requires Taken(retention, s.server.claims, ReplayRequest(s, i), s.server.now)
    ensures var t := Run(retention, s, ReplayEvents(s, i, work));
            && t.outbox == s.outbox[i := PutBack(s.outbox[i])]
            && t.server == s.server.(answers := s.server.answers
                                                + [Answer(s.next + 1, ReplayRequest(s, i), Conflict, "")])
  {
    hide Run, ReplayEvents, SystemInv, Taken;
    ReplaysAlone(retention, s, i, work);
  }

  // ----- The same, from the start -----

  /** The response gets lost, and the retention goes by before the item is replayed. */
  function LateEvents(retention: nat, key: string, w: Write): seq<Event> {
    LostEvents(key, w) + [ServerDoes(Tick(retention + 1))]
  }

  function LateState(retention: nat, tenant: string, actor: string, key: string, w: Write): System {
    var s := LostState(tenant, actor, key, w);
    s.(server := s.server.(now := s.server.now + (retention + 1)))
  }

  lemma LateRun(retention: nat, tenant: string, actor: string, key: string, w: Write)
    requires w.guarded
    ensures Run(retention, Initial(tenant, actor), LateEvents(retention, key, w))
            == LateState(retention, tenant, actor, key, w)
  {
    hide Run, LostEvents, LostState;
    LostRun(retention, tenant, actor, key, w);
    ServerPush(retention, Initial(tenant, actor), LostEvents(key, w), Tick(retention + 1));
  }

  /** The write took effect at time 0; its claim has just gone stale. */
  lemma LateTables(retention: nat, tenant: string, actor: string, key: string, w: Write)
    requires w.guarded && retention > 0
    ensures var s := LateState(retention, tenant, actor, key, w);
            && s.outbox == map[2 := Item(key, w, 0)] && s.server.txs == map[]
            && s.server.effects == [Effect(1, Request(tenant, actor, key, w), 0, 0, "first")]
            && !Taken(retention, s.server.claims, ReplayRequest(s, 2), s.server.now)
            && (Replays(s.server, ReplayRequest(s, 2)) <==> w.recorded)
  {
  }

  /** So a user's write whose response was lost is executed again by a replay after the
      retention exactly when the endpoint keeps no record of it. */
  lemma LateReplayRepeatsExactlyUnrecorded(retention: nat, tenant: string, actor: string, key: string, w: Write)
    requires w.guarded && retention > 0
    ensures var s := Run(retention, Initial(tenant, actor), LateEvents(retention, key, w));
            2 in s.outbox
            && var t := Run(retention, s, ReplayEvents(s, 2, Some("second")));
            && t.outbox == map[] && |s.server.effects| == 1
            && (|t.server.effects| == 2 <==> !w.recorded) && (|t.server.effects| == 1 <==> w.recorded)
            && Tells(s, t, Request(tenant, actor, key, w), Success, if w.recorded then "first" else "second")
  {
    hide Run, ReplayEvents, LateEvents, SystemInv, Taken;
    var s := Run(retention, Initial(tenant, actor), LateEvents(retention, key, w));
    LateRun(retention, tenant, actor, key, w);
    RunSystem(retention, tenant, actor, LateEvents(retention, key, w));
    LateTables(retention, tenant, actor, key, w);
    hide LateState;
    ReplayAfterRetention(retention, s, 2, Some("second"));
  }
}
