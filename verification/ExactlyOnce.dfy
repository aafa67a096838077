// The guarantees of the write path over whole runs, and what it cannot do.
module ExactlyOnce {
  import opened Prelude
  import opened IdempotencyServer
  import opened WritePath
  import opened WritePathTrace
  import opened WritePathOutbox
  import opened WritePathOneEffect

  ghost predicate SystemInv(retention: int, s: System) {
    && ClaimInv(retention, s.server) && RecordInv(s.server)
    && Traced(s) && KeysOk(s) && WaitsOk(s.calls, s.sent) && Kept(s) && OneEach(s)
  }

  lemma HappensServer(retention: int, s: System, e: Event)
    requires ClaimInv(retention, s.server) && RecordInv(s.server)
    ensures ClaimInv(retention, Happens(retention, s, e).server) && RecordInv(Happens(retention, s, e).server)
  {
    hide ClaimInv, RecordInv, Apply, Enabled, Keys;
    if Possible(retention, s, e) {
      match e
      case ServerDoes(a) => NextClaims(retention, s.server, a); NextRecords(retention, s.server, a);
      case Deliver(m) =>
        NextClaims(retention, s.server, Begin(m, s.inbox[m]));
        NextRecords(retention, s.server, Begin(m, s.inbox[m]));
      case Unauthorize(m) =>
        NextClaims(retention, s.server, Reject(m, s.inbox[m]));
        NextRecords(retention, s.server, Reject(m, s.inbox[m]));
      case Lose(_) =>
      case _ => hide Do, Possible; ClientServer(retention, s, e);
    }
  }

  lemma ClientServer(retention: int, s: System, e: Event)
    requires Possible(retention, s, e) && !e.ServerDoes? && !e.Deliver? && !e.Unauthorize?
    ensures Do(retention, s, e).server == s.server
  {
    if Quiet(e) {
      hide Do, Possible;
      QuietFrame(retention, s, e);
    }
  }

  lemma HappensSystem(retention: int, s: System, e: Event)
    requires SystemInv(retention, s)
    ensures SystemInv(retention, Happens(retention, s, e))
  {
    hide ClaimInv, RecordInv, Traced, KeysOk, WaitsOk, Kept, OneEach, Happens;
    HappensServer(retention, s, e);
    HappensTraced(retention, s, e);
    HappensKeys(retention, s, e);
    HappensWaits(retention, s, e);
    HappensKept(retention, s, e);
    HappensOne(retention, s, e);
  }

  lemma {:induction false} RunSystem(retention: int, tenant: string, actor: string, events: seq<Event>)
    ensures SystemInv(retention, Run(retention, Initial(tenant, actor), events))
  {
    if events == [] {
      StartOk(retention);
    } else {
      RunSystem(retention, tenant, actor, events[..|events| - 1]);
      HappensSystem(retention, Run(retention, Initial(tenant, actor), events[..|events| - 1]), events[|events| - 1]);
    }
  }

  // ----- Theorems -----

  lemma EffectOwned(retention: int, s: System, e: Effect)
    requires SystemInv(retention, s) && e in s.server.effects
    ensures Owned(s.owner, e.req.key, e.req.write) && e.req.key !in s.retired
  {
    hide ClaimInv, RecordInv, InboxOk, TxsSent, AnswersSent, NoEffectOf401, Kept, WaitsOk, OutboxOwned, CallsOwned;
    hide RetiredGone, Solo, Refused, OneKey, DirectOwned;
    assert e.id in s.sent && s.sent[e.id] == e.req;
  }

  /** In every run, all effects of one user write carry the same key, 401 retries with fresh
      keys included; they are the very write the user made; and two of them under one tenant
      are more than the retention apart. */
  lemma OneEffectPerWrite(retention: int, tenant: string, actor: string, events: seq<Event>, i: nat, j: nat)
    requires var s := Run(retention, Initial(tenant, actor), events);
             && i < j < |s.server.effects|
             && s.server.effects[i].req.key in s.owner && s.server.effects[j].req.key in s.owner
             && s.owner[s.server.effects[i].req.key].user == s.owner[s.server.effects[j].req.key].user
    ensures var s := Run(retention, Initial(tenant, actor), events);
            var e, f := s.server.effects[i], s.server.effects[j];
            && e.req.key == f.req.key && e.req.write == f.req.write == s.owner[e.req.key].write
            && (e.req.write.guarded && e.req.tenant == f.req.tenant ==>
                retention > 0 && e.started + retention < f.claimedAt)
  {
    var s := Run(retention, Initial(tenant, actor), events);
    var e, f := s.server.effects[i], s.server.effects[j];
    RunSystem(retention, tenant, actor, events);
    hide Run;
    EffectOwned(retention, s, e);
    EffectOwned(retention, s, f);
    assert OneKey(s.owner, s.retired, s.next);
    hide RecordInv, Traced, KeysOk, WaitsOk, Kept, OneEach;
    assert e.req.key == f.req.key;
    if e.req.write.guarded && e.req.tenant == f.req.tenant {
      assert SameClaim(f, ClaimOf(e.req));
      assert Spaced(retention, s.server.effects);
    }
  }

  /** Two effects of one guarded write within the retention need two tenants. */
  lemma SecondEffectNeedsAnotherTenant(retention: int, tenant: string, actor: string, events: seq<Event>, i: nat,
                                       j: nat)
    requires var s := Run(retention, Initial(tenant, actor), events);
             && i < j < |s.server.effects| && s.server.effects[i].req.write.guarded
             && s.server.effects[i].req.key in s.owner && s.server.effects[j].req.key in s.owner
             && s.owner[s.server.effects[i].req.key].user == s.owner[s.server.effects[j].req.key].user
             && !(retention > 0 && s.server.effects[i].started + retention < s.server.effects[j].claimedAt)
    ensures var effects := Run(retention, Initial(tenant, actor), events).server.effects;
            effects[i].req.tenant != effects[j].req.tenant
  {
    OneEffectPerWrite(retention, tenant, actor, events, i, j);
  }

  /** Every key the client saw answered success has an effect, and it is the user's own write. */
  lemma SeenHasEffect(retention: int, tenant: string, actor: string, events: seq<Event>, k: ClaimKey)
    requires k in Run(retention, Initial(tenant, actor), events).seen
    ensures var s := Run(retention, Initial(tenant, actor), events);
            exists e :: e in s.server.effects && ClaimOf(e.req) == k && Owned(s.owner, k.key, e.req.write)
  {
    var s := Run(retention, Initial(tenant, actor), events);
    RunSystem(retention, tenant, actor, events);
    hide Run, ClaimInv, Traced, KeysOk, WaitsOk, OneEach;
    var a :| a in s.server.answers && a.code == Success && ClaimOf(a.req) == k;
    assert AnswerBacked(s.server.effects, a);
    var e :| e in s.server.effects && Stands(e, a);
    EffectOwned(retention, s, e);
  }

  /** The clock starts at zero, and nothing was started or claimed before or after it. */
  ghost predicate Timely(s: Server) {
    && 0 <= s.now
    && (forall i :: i in s.txs ==>
          0 <= s.txs[i].started <= s.now && (s.txs[i].claimedAt.Some? ==> s.txs[i].claimedAt.value <= s.now))
    && (forall e :: e in s.effects ==> 0 <= e.started && e.claimedAt <= s.now)
  }

  lemma NextTimely(retention: int, s: Server, a: Step)
    requires Timely(s)
    ensures Timely(Next(retention, s, a))
  {
    if Enabled(retention, s, a) {
      if a.Tick? || a.Begin? || a.Reject? {
        hide UsedId;
      } else {
        NextMoves(retention, s, a);
        hide Apply, Enabled;
        MovedTimely(s, Apply(retention, s, a));
      }
    }
  }

  /** A step keeps the start of its transaction and may claim now; an effect has its times. */
  ghost predicate Moved(s: Server, t: Server) {
    && t.now == s.now
    && (forall i :: i in t.txs ==>
          && i in s.txs && t.txs[i].started == s.txs[i].started
          && t.txs[i].claimedAt in {None, Some(s.now), s.txs[i].claimedAt})
    && (forall e :: e in t.effects ==>
          e in s.effects || exists i :: i in s.txs && e.started == s.txs[i].started
                                        && Some(e.claimedAt) in {s.txs[i].claimedAt, Some(e.started)})
  }

  lemma PublishMoves(s: Server, id: nat)
    requires id in s.txs
    ensures Moved(s, Publish(s, id))
  {
    hide ClaimsAfter, ScopeOf, ClaimOf;
  }

  /** Where a record is met or inserted nothing is claimed and nothing is done. */
  lemma RecordMoves(retention: int, s: Server, a: Step)
    requires Enabled(retention, s, a) && (a.Start? || a.InsertRecord?)
    ensures Moved(s, Apply(retention, s, a))
  {
    hide ClaimsAfter, RecordLocked, ScopeOf, ClaimOf;
  }

  lemma NextMoves(retention: int, s: Server, a: Step)
    requires Enabled(retention, s, a) && !a.Tick? && !a.Begin? && !a.Reject?
    ensures Moved(s, Apply(retention, s, a))
  {
    if a.Commit? {
      hide Moved, Publish;
      PublishMoves(s, a.id);
    } else if a.Start? || a.InsertRecord? {
      hide Moved, Apply, Enabled;
      RecordMoves(retention, s, a);
    } else {
      hide StaleClaims, ClaimLocked, ClaimOf;
    }
  }

  lemma MovedTimely(s: Server, t: Server)
    requires Timely(s) && Moved(s, t)
    ensures Timely(t)
  {
    forall e | e in t.effects
      ensures 0 <= e.started && e.claimedAt <= t.now
    {
    }
  }

  lemma {:induction false} RunTimely(retention: int, tenant: string, actor: string, events: seq<Event>)
    ensures Timely(Run(retention, Initial(tenant, actor), events).server)
  {
    if events != [] {
      var n := |events| - 1;
      var s, e := Run(retention, Initial(tenant, actor), events[..n]), events[n];
      RunTimely(retention, tenant, actor, events[..n]);
      hide Timely, Apply, Enabled, Keys;
      if Possible(retention, s, e) {
        match e
        case ServerDoes(a) => NextTimely(retention, s.server, a);
        case Deliver(m) => NextTimely(retention, s.server, Begin(m, s.inbox[m]));
        case Unauthorize(m) => NextTimely(retention, s.server, Reject(m, s.inbox[m]));
        case _ => hide Do, Possible; ClientServer(retention, s, e);
      }
    }
  }

  /** While a run is no longer than the retention, a guarded key the client saw answered
      success has exactly one effect under its tenant. */
  lemma SeenHasOneEffect(retention: int, tenant: string, actor: string, events: seq<Event>, k: ClaimKey)
    requires var s := Run(retention, Initial(tenant, actor), events);
             && k in s.seen && k.key in s.owner && s.owner[k.key].write.guarded
             && (retention > 0 ==> s.server.now <= retention)
    ensures var effects := Run(retention, Initial(tenant, actor), events).server.effects;
            exists i :: 0 <= i < |effects| && ClaimOf(effects[i].req) == k
                        && forall j :: 0 <= j < |effects| && ClaimOf(effects[j].req) == k ==> j == i
  {
    hide Run, SystemInv, Timely;
    SeenHasEffect(retention, tenant, actor, events, k);
    RunTimely(retention, tenant, actor, events);
    RunSystem(retention, tenant, actor, events);
    var s := Run(retention, Initial(tenant, actor), events);
    var e :| e in s.server.effects && ClaimOf(e.req) == k && Owned(s.owner, k.key, e.req.write);
    var i :| 0 <= i < |s.server.effects| && s.server.effects[i] == e;
    OnlyEffect(retention, s, k, i);
  }

  lemma OnlyEffect(retention: int, s: System, k: ClaimKey, i: nat)
    requires SystemInv(retention, s) && Timely(s.server) && (retention > 0 ==> s.server.now <= retention)
    requires i < |s.server.effects| && ClaimOf(s.server.effects[i].req) == k
    requires k.key in s.owner && s.owner[k.key].write.guarded
    ensures forall j :: 0 <= j < |s.server.effects| && ClaimOf(s.server.effects[j].req) == k ==> j == i
  {
    hide SystemInv, Timely;
    forall j | 0 <= j < |s.server.effects| && ClaimOf(s.server.effects[j].req) == k
      ensures j == i
    {
      if j != i {
        TwoEffectsTakeLong(retention, s, if i < j then i else j, if i < j then j else i);
      }
    }
  }

  lemma TwoEffectsTakeLong(retention: int, s: System, i: nat, j: nat)
    requires SystemInv(retention, s) && Timely(s.server) && i < j < |s.server.effects|
    requires ClaimOf(s.server.effects[i].req) == ClaimOf(s.server.effects[j].req)
    requires s.server.effects[i].req.key in s.owner && s.owner[s.server.effects[i].req.key].write.guarded
    ensures retention > 0 && s.server.now > retention
  {
    var e, f := s.server.effects[i], s.server.effects[j];
    assert e in s.server.effects && f in s.server.effects;
    EffectOwned(retention, s, e);
    EffectOwned(retention, s, f);
    hide RecordInv, Traced, KeysOk, WaitsOk, Kept, OneEach, Exclusive, TxsOk, EffectsOk, HoldersOk;
    assert SameClaim(f, ClaimOf(e.req));
  }

  /** A queued key stays in the outbox until it was answered success or the user removed it. */
  lemma NothingLost(retention: int, tenant: string, actor: string, events: seq<Event>, k: string)
    requires k in Run(retention, Initial(tenant, actor), events).queued
    ensures var s := Run(retention, Initial(tenant, actor), events);
            k in Keys(s.outbox) || SeenKey(s.seen, k) || k in s.discarded
  {
    RunSystem(retention, tenant, actor, events);
    hide Run;
    QueuedSomewhere(retention, Run(retention, Initial(tenant, actor), events), k);
  }

  lemma QueuedSomewhere(retention: int, s: System, k: string)
    requires SystemInv(retention, s) && k in s.queued
    ensures k in Keys(s.outbox) || SeenKey(s.seen, k) || k in s.discarded
  {
    hide ClaimInv, RecordInv, Traced, KeysOk, WaitsOk, OneEach, SeenOk, ItemsOk, DeletingOk;
  }

  /** No live call is about to hear a success for claim k that was already answered. */
  ghost predicate Deaf(calls: map<nat, Call>, answers: seq<Answer>, k: ClaimKey) {
    forall c, a | c in calls && calls[c].phase.Waiting? && a in answers && a.id == calls[c].phase.msg
      && a.code == Success ::
      ClaimOf(a.req) != k
  }

  ghost predicate NobodyListens(s: System, k: ClaimKey) {
    k !in s.seen && Deaf(s.calls, s.server.answers, k)
  }

  /** While effect f of claim k is within the retention, the server answers nobody success for k. */
  lemma NoNewSuccess(retention: int, s: Server, a: Step, k: ClaimKey, f: Effect)
    requires ClaimInv(retention, s) && Enabled(retention, s, a) && !a.Begin? && !a.Reject?
    requires f in s.effects && SameClaim(f, k) && !Stale(retention, f.started, s.now)
    requires forall i :: i in s.txs && ClaimOf(s.txs[i].req) == k ==> s.txs[i].req.write.guarded
    ensures s.answers <= Apply(retention, s, a).answers
    ensures forall x :: x in Apply(retention, s, a).answers[|s.answers|..] && x.code == Success ==> ClaimOf(x.req) != k
  {
    hide ClaimInv, Apply, Enabled, Stale, SameClaim;
    var t := Apply(retention, s, a);
    NextGrows(retention, s, a);
    forall x | x in t.answers[|s.answers|..] && x.code == Success ensures ClaimOf(x.req) != k {
      assert x == t.answers[|s.answers|];
      if ClaimOf(x.req) == k {
        SuccessIsClaimed(retention, s, a);
        SuccessNeedsStale(retention, s, a, f);
        assert false;
      }
    }
  }

  lemma GuardedTxs(retention: int, s: System, k: ClaimKey, f: Effect)
    requires SystemInv(retention, s) && f in s.server.effects && SameClaim(f, k)
    ensures forall i :: i in s.server.txs && ClaimOf(s.server.txs[i].req) == k ==> s.server.txs[i].req.write.guarded
  {
    EffectOwned(retention, s, f);
    hide ClaimInv, RecordInv, InboxOk, AnswersSent, EffectsSent;
    hide NoEffectOf401, Kept, WaitsOk, OutboxOwned, CallsOwned, OneEach;
    forall i | i in s.server.txs && ClaimOf(s.server.txs[i].req) == k ensures s.server.txs[i].req.write.guarded {
      assert Owned(s.owner, s.sent[i].key, s.sent[i].write);
    }
  }

  lemma DeafServer(retention: int, s: System, a: Step, k: ClaimKey, f: Effect)
    requires SystemInv(retention, s) && NobodyListens(s, k) && Possible(retention, s, ServerDoes(a))
    requires f in s.server.effects && SameClaim(f, k) && !Stale(retention, f.started, s.server.now)
    ensures NobodyListens(Do(retention, s, ServerDoes(a)), k)
  {
    GuardedTxs(retention, s, k, f);
    hide RecordInv, Traced, KeysOk, WaitsOk, Kept, OneEach, ClaimInv, Deaf;
    NoNewSuccess(retention, s.server, a, k, f);
    hide Apply, Enabled;
    var t := Do(retention, s, ServerDoes(a)).server;
    DeafMore(s.calls, s.server.answers, t.answers, k);
  }

  lemma DeafMore(calls: map<nat, Call>, answers: seq<Answer>, longer: seq<Answer>, k: ClaimKey)
    requires Deaf(calls, answers, k) && answers <= longer
    requires forall x :: x in longer[|answers|..] && x.code == Success ==> ClaimOf(x.req) != k
    ensures Deaf(calls, longer, k)
  {
    assert longer == answers + longer[|answers|..];
  }

  lemma DeafArrival(retention: int, s: System, e: Event, k: ClaimKey)
    requires NobodyListens(s, k) && Possible(retention, s, e) && (e.Deliver? || e.Unauthorize? || e.Lose?)
    ensures NobodyListens(Do(retention, s, e), k)
  {
  }

  lemma DeafSend(s: System, c: nat, call: Call, key: string, k: ClaimKey)
    requires NobodyListens(s, k) && AnswersSent(s.server.answers, s.sent, s.server.txs) && s.next !in s.sent
    ensures NobodyListens(Send(s, c, call, key), k)
  {
  }

  lemma DeafClient(retention: int, s: System, e: Event, k: ClaimKey)
    requires NobodyListens(s, k) && Traced(s) && Possible(retention, s, e)
    requires e.Submit? || e.StartReplay? || e.RefreshOk?
    ensures NobodyListens(Do(retention, s, e), k)
  {
    hide InboxOk, TxsSent, EffectsSent, NoEffectOf401, AnswersSent, Deaf, Enabled, Apply;
    match e
    case Submit(key, write) =>
      DeafSend(s.(next := s.next + 1, owner := s.owner[key := Owner(s.next, write)]), s.next,
               Call(s.next, Direct, key, write, false, PuttingBack), key, k);
    case StartReplay(i) =>
      DeafSend(s.(next := s.next + 1), s.next, ReplayCall(s, i), s.outbox[i].key, k);
    case RefreshOk(c, key) =>
      var call := s.calls[c].(retried := true);
      if call.origin.Replay? {
        DeafSend(s, c, call, call.key, k);
      } else {
        var minted := s.(owner := s.owner[key := Owner(call.user, call.write)], retired := s.retired + {call.key});
        DeafSend(minted, c, call, key, k);
      }
  }

  lemma DeafReceive(retention: int, s: System, c: nat, i: nat, canRefresh: bool, k: ClaimKey)
    requires NobodyListens(s, k) && Possible(retention, s, Receive(c, i, canRefresh))
    ensures NobodyListens(Do(retention, s, Receive(c, i, canRefresh)), k)
  {
    hide Do, Possible;
    ReceiveDoes(retention, s, c, i, canRefresh);
    DeafRephase(s.calls, s.server.answers, k, c, Deleting);
    DeafRephase(s.calls, s.server.answers, k, c, PuttingBack);
    DeafRephase(s.calls, s.server.answers, k, c, Refreshing(s.calls[c].phase.msg));
    assert s.server.answers[i].code == Success ==> ClaimOf(s.server.answers[i].req) != k by {
      assert s.server.answers[i] in s.server.answers;
    }
    hide Deaf;
  }

  lemma DeafRephase(calls: map<nat, Call>, answers: seq<Answer>, k: ClaimKey, c: nat, phase: CallPhase)
    requires Deaf(calls, answers, k) && c in calls && !phase.Waiting?
    ensures Deaf(calls[c := calls[c].(phase := phase)], answers, k) && Deaf(calls - {c}, answers, k)
  {
  }

  /** The other client events start no waiting and hear no answer. */
  lemma DeafElse(retention: int, s: System, e: Event, k: ClaimKey)
    requires NobodyListens(s, k) && Possible(retention, s, e)
    requires Quiet(e) && !e.Receive?
    ensures NobodyListens(Do(retention, s, e), k)
  {
    hide Deaf, Do, Possible;
    QuietFrame(retention, s, e);
    DeafQuiet(retention, s, e, k);
  }

  lemma DeafQuiet(retention: int, s: System, e: Event, k: ClaimKey)
    requires Possible(retention, s, e) && Deaf(s.calls, s.server.answers, k)
    requires Quiet(e) && !e.Receive?
    ensures Do(retention, s, e).seen == s.seen && Deaf(Do(retention, s, e).calls, s.server.answers, k)
  {
    hide Deaf, Keys, Enabled, Apply, UsedId, ClaimOf;
    if e.NetworkFails? || e.RefreshFails? {
      DeafRephase(s.calls, s.server.answers, k, e.call, PuttingBack);
    } else if e.Settle? {
      hide Do, Possible;
      SettleDoes(retention, s, e.call);
      DeafRephase(s.calls, s.server.answers, k, e.call, PuttingBack);
    }
  }

  lemma DeafStep(retention: int, s: System, e: Event, k: ClaimKey, f: Effect)
    requires SystemInv(retention, s) && NobodyListens(s, k)
    requires f in s.server.effects && SameClaim(f, k) && !Stale(retention, f.started, s.server.now)
    ensures NobodyListens(Happens(retention, s, e), k)
  {
    hide NobodyListens, ClaimInv, RecordInv, Traced, KeysOk, WaitsOk, Kept, OneEach, Do, Possible;
    if Possible(retention, s, e) {
      match e
      case ServerDoes(a) => DeafServer(retention, s, a, k, f);
      case Deliver(_) => DeafArrival(retention, s, e, k);
      case Unauthorize(_) => DeafArrival(retention, s, e, k);
      case Lose(_) => DeafArrival(retention, s, e, k);
      case Submit(_, _) => DeafClient(retention, s, e, k);
      case StartReplay(_) => DeafClient(retention, s, e, k);
      case RefreshOk(_, _) => DeafClient(retention, s, e, k);
      case Receive(c, i, canRefresh) => DeafReceive(retention, s, c, i, canRefresh, k);
      case _ => DeafElse(retention, s, e, k);
    }
  }

  lemma HappensGrows(retention: int, s: System, e: Event)
    ensures s.server.now <= Happens(retention, s, e).server.now
            && s.server.effects <= Happens(retention, s, e).server.effects
  {
    hide Keys;
    if Possible(retention, s, e) {
      match e
      case ServerDoes(a) => NextGrows(retention, s.server, a);
      case Deliver(_) =>
      case Unauthorize(_) =>
      case _ => hide Do, Possible; ClientServer(retention, s, e);
    }
  }

  /** Once an effect is committed and nobody is about to hear of it, the client is never told
      success for its (tenant, key) within the retention, whatever is sent, replayed or refreshed. */
  lemma {:induction false} NeverHearsSuccess(retention: int, tenant: string, actor: string, before: seq<Event>,
                                             events: seq<Event>, k: ClaimKey, f: Effect)
    requires var s := Run(retention, Initial(tenant, actor), before);
             f in s.server.effects && SameClaim(f, k) && NobodyListens(s, k)
    requires !Stale(retention, f.started,
                    Run(retention, Run(retention, Initial(tenant, actor), before), events).server.now)
    ensures var t := Run(retention, Run(retention, Initial(tenant, actor), before), events);
            && SystemInv(retention, t) && f in t.server.effects && NobodyListens(t, k) && k !in t.seen
  {
    var s := Run(retention, Initial(tenant, actor), before);
    if events == [] {
      RunSystem(retention, tenant, actor, before);
    } else {
      var n := |events| - 1;
      var mid := Run(retention, s, events[..n]);
      HappensGrows(retention, mid, events[n]);
      NeverHearsSuccess(retention, tenant, actor, before, events[..n], k, f);
      DeafStep(retention, mid, events[n], k, f);
      HappensSystem(retention, mid, events[n]);
    }
  }

  /** Such a write cannot be settled by replay within the retention: queued, it is in the outbox
      until the user removes it or the same key is answered success under another tenant. */
  lemma LostResponseStaysQueued(retention: int, tenant: string, actor: string, before: seq<Event>,
                                events: seq<Event>, k: ClaimKey, f: Effect)
    requires var s := Run(retention, Initial(tenant, actor), before);
             f in s.server.effects && SameClaim(f, k) && NobodyListens(s, k)
    requires !Stale(retention, f.started,
                    Run(retention, Run(retention, Initial(tenant, actor), before), events).server.now)
    ensures var t := Run(retention, Run(retention, Initial(tenant, actor), before), events);
            k.key in t.queued ==>
              || k.key in Keys(t.outbox) || k.key in t.discarded
              || exists other :: other in t.seen && other.key == k.key && other.tenant != k.tenant
  {
    NeverHearsSuccess(retention, tenant, actor, before, events, k, f);
    var t := Run(retention, Run(retention, Initial(tenant, actor), before), events);
    hide Run, SystemInv;
    if k.key in t.queued {
      QueuedSomewhere(retention, t, k.key);
      if SeenKey(t.seen, k.key) {
        var other :| other in t.seen && other.key == k.key;
        assert other != k;
      }
    }
  }

  /** Only a switch changes the tenant, and a request is sent under the tenant of its moment. */
  lemma TenantStep(retention: int, s: System, e: Event)
    requires !e.SwitchTenant?
    ensures var t := Happens(retention, s, e);
            t.tenant == s.tenant
              && forall m :: m in t.sent ==> (m in s.sent && t.sent[m] == s.sent[m]) || t.sent[m].tenant == s.tenant
  {
    if Possible(retention, s, e) {
      if e.Submit? || e.StartReplay? || e.RefreshOk? {
        TenantSend(retention, s, e);
      } else if Quiet(e) {
        hide Do, Possible;
        QuietFrame(retention, s, e);
        TenantQuiet(retention, s, e);
      } else {
        hide Apply, Enabled, UsedId;
      }
    }
  }

  lemma TenantSend(retention: int, s: System, e: Event)
    requires Possible(retention, s, e) && (e.Submit? || e.StartReplay? || e.RefreshOk?)
    ensures var t := Do(retention, s, e);
            t.tenant == s.tenant
              && forall m :: m in t.sent ==> (m in s.sent && t.sent[m] == s.sent[m]) || t.sent[m].tenant == s.tenant
  {
    hide Enabled;
  }

  lemma TenantQuiet(retention: int, s: System, e: Event)
    requires Possible(retention, s, e) && Quiet(e) && !e.SwitchTenant?
    ensures Do(retention, s, e).tenant == s.tenant
  {
    if e.Receive? {
      hide Do, Possible;
      ReceiveFrame(retention, s, e.call, e.answer, e.canRefresh);
    } else if e.RefreshFails? || e.Settle? {
      hide Do, Possible;
      EndFrame(retention, s, e.call);
    } else {
      hide Keys, Enabled, Apply, UsedId;
    }
  }

  lemma {:induction false} SentSince(retention: int, s: System, events: seq<Event>)
    requires forall e :: e in events ==> !e.SwitchTenant?
    ensures var t := Run(retention, s, events);
            && t.tenant == s.tenant && s.queued <= t.queued
            && forall m :: m in t.sent ==> (m in s.sent && t.sent[m] == s.sent[m]) || t.sent[m].tenant == s.tenant
  {
    if events != [] {
      var n := |events| - 1;
      SentSince(retention, s, events[..n]);
      TenantStep(retention, Run(retention, s, events[..n]), events[n]);
      QueuedGrows(retention, Run(retention, s, events[..n]), events[n]);
    }
  }

  lemma QueuedGrows(retention: int, s: System, e: Event)
    ensures s.queued <= Happens(retention, s, e).queued
  {
    if Possible(retention, s, e) {
      if e.Receive? {
        hide Do, Possible;
        ReceiveFrame(retention, s, e.call, e.answer, e.canRefresh);
      } else if e.RefreshFails? || e.Settle? {
        hide Do, Possible;
        EndFrame(retention, s, e.call);
      } else {
        hide Keys, Enabled, Apply, UsedId;
      }
    }
  }

  /** Without a switch of the tenant every request ever sent is of the first one. */
  lemma OneTenant(retention: int, tenant: string, actor: string, events: seq<Event>)
    requires forall e :: e in events ==> !e.SwitchTenant?
    ensures var s := Run(retention, Initial(tenant, actor), events);
            s.tenant == tenant && forall m :: m in s.sent ==> s.sent[m].tenant == tenant
  {
    SentSince(retention, Initial(tenant, actor), events);
  }

  /** A key seen answered success was sent under that tenant. */
  lemma SeenWasSent(retention: int, s: System, k: ClaimKey)
    requires SystemInv(retention, s) && k in s.seen
    ensures exists m :: m in s.sent && s.sent[m].key == k.key && s.sent[m].tenant == k.tenant
  {
    hide ClaimInv, RecordInv, KeysOk, WaitsOk, OneEach, InboxOk;
    hide TxsSent, EffectsSent, NoEffectOf401, ItemsOk, QueuedOk, DeletingOk;
    var a :| a in s.server.answers && a.code == Success && ClaimOf(a.req) == k;
    assert a.id in s.sent && s.sent[a.id] == a.req;
  }

  /** Hence, if the key was sent under its tenant only and the tenant is not switched, a write
      whose answer was lost stays in the outbox for the whole retention until the user removes it. */
  lemma LostResponseBlocksWithoutSwitch(retention: int, tenant: string, actor: string, before: seq<Event>,
                                        events: seq<Event>, k: ClaimKey, f: Effect)
    requires var s := Run(retention, Initial(tenant, actor), before);
             && f in s.server.effects && SameClaim(f, k) && NobodyListens(s, k) && k.key in s.queued
             && s.tenant == k.tenant
                && forall m :: m in s.sent && s.sent[m].key == k.key ==> s.sent[m].tenant == k.tenant
    requires !Stale(retention, f.started,
                    Run(retention, Run(retention, Initial(tenant, actor), before), events).server.now)
    requires forall e :: e in events ==> !e.SwitchTenant?
    ensures var t := Run(retention, Run(retention, Initial(tenant, actor), before), events);
            k.key in Keys(t.outbox) || k.key in t.discarded
  {
    NeverHearsSuccess(retention, tenant, actor, before, events, k, f);
    LostResponseStaysQueued(retention, tenant, actor, before, events, k, f);
    var s := Run(retention, Initial(tenant, actor), before);
    SentSince(retention, s, events);
    var t := Run(retention, s, events);
    hide Run, SystemInv;
    if other :| other in t.seen && other.key == k.key && other.tenant != k.tenant {
      SeenWasSent(retention, t, other);
      assert false;
    }
  }

  /** While the active tenant is not switched, a guarded user write has at most one effect in
      any span of the retention, over all keys it was sent under. */
  lemma OneEffectWithoutSwitch(retention: int, tenant: string, actor: string, events: seq<Event>, i: nat, j: nat)
    requires forall e :: e in events ==> !e.SwitchTenant?
    requires var s := Run(retention, Initial(tenant, actor), events);
             && i < j < |s.server.effects| && s.server.effects[i].req.write.guarded
             && s.server.effects[i].req.key in s.owner && s.server.effects[j].req.key in s.owner
             && s.owner[s.server.effects[i].req.key].user == s.owner[s.server.effects[j].req.key].user
    ensures var effects := Run(retention, Initial(tenant, actor), events).server.effects;
            retention > 0 && effects[i].started + retention < effects[j].claimedAt
  {
    var s := Run(retention, Initial(tenant, actor), events);
    OneEffectPerWrite(retention, tenant, actor, events, i, j);
    OneTenant(retention, tenant, actor, events);
    RunSystem(retention, tenant, actor, events);
    hide Run, ClaimInv, RecordInv, KeysOk, WaitsOk, Kept, OneEach, InboxOk, TxsSent, AnswersSent, NoEffectOf401;
    assert s.server.effects[i] in s.server.effects && s.server.effects[j] in s.server.effects;
  }
}
