// The networks that answer the client object: for every list of fetches a request can make
// there is one that the write path has too, unless the server's tables rule the answer out.
module WriteClientNetworks {
  import opened Prelude
  import opened IdempotencyServer
  import opened IdempotencySession
  import opened WritePath
  import opened WritePathTrace
  import opened WritePathOutbox
  import opened WritePathOneEffect
  import opened WritePathRuns
  import opened WritePathAnswers
  import opened ExactlyOnce
  import opened WriteClientRuns
  import C = WriteClient

  // ----- Which replies the tables allow -----

  /** The tables hold the request's record, of the same payload. */
  predicate Recorded(s: Server, req: Request) {
    Replays(s, req) && s.records[ScopeOf(req)].hash == req.write.hash
  }

  predicate KeyTaken(retention: int, s: Server, req: Request) {
    req.write.guarded && Taken(retention, s.claims, req, s.now)
  }

  /** A success needs a free key and no record of another payload; another refusal than 401
      needs a taken key, or no record to replay. */
  predicate Answerable(retention: int, s: Server, req: Request, reply: C.Reply) {
    match reply
    case NetworkError => true
    case Response(status) =>
      if status == 401 then true
      else if 200 <= status < 300 then !KeyTaken(retention, s, req) && (Replays(s, req) ==> Recorded(s, req))
      else KeyTaken(retention, s, req) || !Recorded(s, req)
  }

  /** An idle server can give a request this status exactly when its tables allow it. */
  lemma AnswerableExactlyWhen(retention: int, s: Server, req: Request, status: nat)
    requires RecordsComplete(s.records) && status != 401
    ensures (exists work: Option<string> :: Means(Told(retention, s, req, work).0, status))
            <==> Answerable(retention, s, req, C.Response(status))
  {
    hide Taken;
    var none: Option<string>, some: Option<string> := None, Some("");
    var raised, done := Told(retention, s, req, none).0, Told(retention, s, req, some).0;
    assert Answerable(retention, s, req, C.Response(status)) <==> Means(raised, status) || Means(done, status);
    forall work: Option<string> ensures Told(retention, s, req, work).0 in {raised, done} {
    }
  }

  // ----- One reply -----

  /** Message m is refused with 401, whatever else is open. */
  lemma RefusesMessage(retention: int, s: System, m: nat)
    requires Traced(s) && m in s.inbox
    ensures Run(retention, s, [Unauthorize(m)])
              == s.(inbox := s.inbox - {m},
                    server := s.server.(answers := s.server.answers + [Answer(m, s.inbox[m], Unauthorized, "")]))
  {
    hide TxsSent, AnswersSent, EffectsSent, NoEffectOf401, UsedId, Run;
    RunOne(retention, s, Unauthorize(m));
  }

  lemma UnusedMessage(s: System, m: nat)
    requires Traced(s) && m in s.inbox
    ensures !UsedId(s.server, m) && !UsedId(s.server.(txs := map[]), m)
  {
    hide TxsSent, AnswersSent, EffectsSent, NoEffectOf401;
  }

  lemma OnlyCrashes(steps: seq<Step>)
    requires forall a :: a in steps ==> a.Crash?
    ensures AllElsewhere(Does(steps))
  {
  }

  lemma AnswersElsewhere(m: nat, work: Option<string>)
    ensures AllElsewhere(AnswerEvents(m, work))
  {
  }

  lemma BothElsewhere(a: seq<Event>, b: seq<Event>)
    requires AllElsewhere(a) && AllElsewhere(b)
    ensures AllElsewhere(a + b)
  {
  }

  /** The server drops what is open and serves message m from its first statement to its last. */
  lemma ServesMessage(retention: int, s: System, m: nat, work: Option<string>) returns (events: seq<Event>)
    requires Traced(s) && m in s.inbox
    ensures AllElsewhere(events)
    ensures var idle := s.server.(txs := map[]);
            Run(retention, s, events)
              == s.(inbox := s.inbox - {m}, server := Answered(retention, idle, m, s.inbox[m], work))
  {
    hide Run, Traced, UsedId, Answered, AnswerEvents, Interleave, Does, AllElsewhere;
    var idle := s.server.(txs := map[]);
    var steps := CanIdle(retention, s.server);
    OnlyCrashes(steps);
    AnswersElsewhere(m, work);
    BothElsewhere(Does(steps), AnswerEvents(m, work));
    UnusedMessage(s, m);
    events := Does(steps) + AnswerEvents(m, work);
    RunConcat(retention, s, Does(steps), AnswerEvents(m, work));
    DoesRun(retention, s, steps);
    Answers(retention, s.(server := idle), m, work);
  }

  lemma SameTold(retention: int, s: Server, req: Request, work: Option<string>)
    ensures Told(retention, s.(txs := map[]), req, work) == Told(retention, s, req, work)
  {
  }

  /** A waiting call whose message is still on its way can hear every reply that the tables allow. */
  lemma ReplyExists(retention: int, s: System, c: nat, f: C.Fetch) returns (elsewhere: Meanwhile)
    requires SystemInv(retention, s) && IsWaiting(s, c) && s.calls[c].phase.msg in s.inbox
    requires Answerable(retention, s.server, s.inbox[s.calls[c].phase.msg], f.reply)
    ensures AllElsewhere(elsewhere.events)
    ensures Hears(Run(retention, s, elsewhere.events), c, f, elsewhere.answer)
  {
    hide ClaimInv, Traced, KeysOk, WaitsOk, Kept, OneEach, Run, RecordHolders, EffectsRecorded, RecordsBacked;
    hide AnswersBacked, Answerable, Told, Answered, RecordsComplete, Elsewhere;
    var m := s.calls[c].phase.msg;
    var n := |s.server.answers|;
    if f.reply == C.NetworkError {
      elsewhere := Meanwhile([], n);
      NoEvents(retention, s);
    } else if f.reply == C.Response(401) {
      elsewhere := Meanwhile([Unauthorize(m)], n);
      RefusesMessage(retention, s, m);
      assert Elsewhere(Unauthorize(m)) by { IsElsewhere(m); }
    } else {
      AnswerableExactlyWhen(retention, s.server, s.inbox[m], f.reply.status);
      var work: Option<string> :| Means(Told(retention, s.server, s.inbox[m], work).0, f.reply.status);
      var events := ServesMessage(retention, s, m, work);
      elsewhere := Meanwhile(events, n);
      SameTold(retention, s.server, s.inbox[m], work);
      var idle := s.server.(txs := map[]);
      LastAnswer(retention, idle, m, s.inbox[m], work);
    }
  }

  lemma NoEvents(retention: int, s: System)
    ensures Run(retention, s, []) == s
  {
  }

  lemma IsElsewhere(m: nat)
    ensures Elsewhere(Unauthorize(m))
  {
  }

  // ----- A whole call -----

  /** The call's message is on its way as the client would send it now. */
  predicate JustSent(s: System, c: nat) {
    && IsWaiting(s, c) && s.calls[c].phase.msg in s.inbox
    && s.inbox[s.calls[c].phase.msg] == Request(s.tenant, s.actor, s.calls[c].key, s.calls[c].write)
  }

  /** The request that goes out after a 401: under the call's own key, or a direct call's new one. */
  function NextRequest(s: System, c: nat, key: string): Request
    requires c in s.calls
  {
    var call := s.calls[c];
    Request(s.tenant, s.actor, if call.origin.Direct? then key else call.key, call.write)
  }

  predicate SameTables(s: Server, t: Server) {
    t.claims == s.claims && t.records == s.records && t.now == s.now
  }

  lemma SameAnswerable(retention: int, s: Server, t: Server, req: Request, reply: C.Reply)
    requires SameTables(s, t)
    ensures Answerable(retention, t, req, reply) <==> Answerable(retention, s, req, reply)
  {
    hide Taken;
  }

  function Refusal(s: System, c: nat): Meanwhile
    requires IsWaiting(s, c)
  {
    Meanwhile([Unauthorize(s.calls[c].phase.msg)], |s.server.answers|)
  }

  /** After a 401 the second attempt goes out, and the tables are as they were. */
  lemma RefusedOnce(retention: int, s: System, c: nat, key: string)
    requires SystemInv(retention, s) && JustSent(s, c) && !s.calls[c].retried && key !in s.owner
    ensures AllElsewhere(Refusal(s, c).events)
    ensures Hears(Run(retention, s, Refusal(s, c).events), c, C.Fetch(C.POST, "", None, C.Response(401)),
                  Refusal(s, c).answer)
    ensures var mid := Run(retention, s, FirstAttempt(c, Refusal(s, c), key));
            && SystemInv(retention, mid) && JustSent(mid, c) && SameTables(s.server, mid.server)
            && mid.inbox[mid.calls[c].phase.msg] == NextRequest(s, c, key)
  {
    hide Run, ClaimInv, RecordInv, KeysOk, WaitsOk, Kept, OneEach, Traced, Happens;
    var m, first := s.calls[c].phase.msg, Refusal(s, c);
    RefusesMessage(retention, s, m);
    assert Elsewhere(Unauthorize(m));
    var heard := Run(retention, s, first.events);
    RunKeepsInv(retention, s, first.events);
    RunKeepsInv(retention, s, FirstAttempt(c, first, key));
    RunConcat(retention, s, first.events, [Receive(c, first.answer, true)] + [RefreshOk(c, key)]);
    Retries(retention, heard, c, C.Fetch(C.POST, "", None, C.Response(401)), first.answer, key);
  }

  /** A call that has just been sent can hear these replies in turn, if the tables allow the last. */
  lemma NetworkExists(retention: int, s: System, c: nat, done: seq<C.Fetch>, key: string)
    returns (first: Meanwhile, second: Meanwhile)
    requires SystemInv(retention, s) && JustSent(s, c) && !s.calls[c].retried && key !in s.owner
    requires 1 <= |done| <= 2 && (|done| == 2 ==> done[0].reply == C.Response(401))
    requires var req := if |done| == 2 then NextRequest(s, c, key) else s.inbox[s.calls[c].phase.msg];
             Answerable(retention, s.server, req, C.Last(done).reply)
    ensures Agrees(retention, s, c, done, first, second, key)
  {
    hide Run, SystemInv, Answerable, Elsewhere;
    if |done| == 1 {
      first := ReplyExists(retention, s, c, done[0]);
      second := Meanwhile([], 0);
    } else {
      first := Refusal(s, c);
      RefusedOnce(retention, s, c, key);
      var mid := Run(retention, s, FirstAttempt(c, first, key));
      SameAnswerable(retention, s.server, mid.server, NextRequest(s, c, key), done[1].reply);
      second := ReplyExists(retention, mid, c, done[1]);
      RunConcat(retention, s, FirstAttempt(c, first, key), second.events);
    }
  }

  // ----- Keys never used before -----

  /** Every claim is of a key that was minted. */
  ghost predicate ClaimsMinted(s: System) {
    forall k :: k in s.server.claims ==> k.key in s.owner
  }

  lemma ClaimsFrom(retention: int, s: Server, a: Step)
    requires Enabled(retention, s, a)
    ensures forall k :: k in Apply(retention, s, a).claims ==>
              k in s.claims || exists id :: id in s.txs && ClaimOf(s.txs[id].req) == k
  {
    hide ClaimLocked, RecordLocked, StaleClaims, ScopeOf, ClaimOf;
  }

  lemma TxsMinted(s: System)
    requires Traced(s) && KeysOk(s)
    ensures forall id :: id in s.server.txs ==> s.server.txs[id].req.key in s.owner
  {
    hide InboxOk, AnswersSent, EffectsSent, NoEffectOf401, OutboxOwned, CallsOwned;
    forall id | id in s.server.txs ensures s.server.txs[id].req.key in s.owner {
      assert Owned(s.owner, s.sent[id].key, s.sent[id].write);
    }
  }

  lemma OwnersKept(retention: int, s: System, e: Event)
    ensures forall k :: k in s.owner ==> k in Happens(retention, s, e).owner
  {
    if Possible(retention, s, e) {
      if e.Receive? {
        hide Do, Possible;
        ReceiveFrame(retention, s, e.call, e.answer, e.canRefresh);
      } else if e.RefreshFails? || e.Settle? {
        hide Do, Possible;
        EndFrame(retention, s, e.call);
      } else {
        hide Apply, Enabled, Keys, UsedId;
      }
    }
  }

  lemma HappensMinted(retention: int, s: System, e: Event)
    requires Traced(s) && KeysOk(s) && ClaimsMinted(s)
    ensures ClaimsMinted(Happens(retention, s, e))
  {
    OwnersKept(retention, s, e);
    hide Traced, KeysOk, Apply, Enabled;
    if Possible(retention, s, e) {
      if e.ServerDoes? {
        ClaimsFrom(retention, s.server, e.step);
        TxsMinted(s);
      } else if e.Deliver? || e.Unauthorize? {
        ArrivalKeepsClaims(retention, s, e);
      } else {
        hide Do, Possible;
        ClientServer(retention, s, e);
      }
    }
  }

  lemma ArrivalKeepsClaims(retention: int, s: System, e: Event)
    requires Possible(retention, s, e) && (e.Deliver? || e.Unauthorize?)
    ensures Do(retention, s, e).server.claims == s.server.claims
  {
  }

  lemma {:induction false} RunMinted(retention: int, tenant: string, actor: string, events: seq<Event>)
    ensures ClaimsMinted(Run(retention, Initial(tenant, actor), events))
  {
    hide Happens, ClaimsMinted;
    if events == [] {
      NothingClaimed(tenant, actor);
    } else {
      var n := |events| - 1;
      RunMinted(retention, tenant, actor, events[..n]);
      RunSystem(retention, tenant, actor, events[..n]);
      HappensMinted(retention, Run(retention, Initial(tenant, actor), events[..n]), events[n]);
    }
  }

  lemma NothingClaimed(tenant: string, actor: string)
    ensures ClaimsMinted(Initial(tenant, actor))
  {
  }

  lemma RecordsMinted(retention: int, s: System)
    requires SystemInv(retention, s)
    ensures forall c :: c in s.server.records ==> c.key in s.owner
  {
    hide ClaimInv, WaitsOk, Kept, OneEach, InboxOk, TxsSent, AnswersSent, NoEffectOf401, OutboxOwned, CallsOwned;
    hide RecordsComplete, RecordHolders, EffectsRecorded, AnswersBacked;
    forall c | c in s.server.records ensures c.key in s.owner {
      var e :| e in s.server.effects && e.req.write.recorded && ScopeOf(e.req) == c
            && EffectRecorded(s.server.records, e);
      assert Owned(s.owner, e.req.key, e.req.write);
    }
  }

  /** A key nobody has minted yet is free in every table. */
  lemma FreshKeyAnswerable(retention: int, s: System, req: Request, reply: C.Reply)
    requires SystemInv(retention, s) && ClaimsMinted(s) && req.key !in s.owner
    ensures Answerable(retention, s.server, req, reply)
  {
    hide SystemInv, Stale;
    RecordsMinted(retention, s);
  }

  // ----- Requests and replays -----

  /** For every list of fetches of a user's write, in every reachable system, there is a
      network that answers the write path alike, whatever the user's keys. */
  lemma RequestHasNetwork(retention: int, tenant: string, actor: string, events: seq<Event>, verb: C.Verb,
                          path: string, o: C.Options, keys: nat -> string, before: nat, after: nat, hadToken: bool,
                          done: seq<C.Fetch>, out: C.Outcome, write: Write)
    returns (first: Meanwhile, second: Meanwhile)
    requires C.IsWrite(verb) && C.Normalized(path) !in C.UNQUEUED && o.withKey && o.key == None
    requires C.Requested(verb, path, o, keys, before, after, hadToken, done, out)
    requires keys(before) != "" && keys(before + 1) != "" && keys(before + 1) != keys(before)
    requires var s := Run(retention, Initial(tenant, actor), events);
             keys(before) !in s.owner && keys(before + 1) !in s.owner
    ensures var s := Run(retention, Initial(tenant, actor), events);
            && 1 <= |done| <= 2
            && Agrees(retention, Submitted(s, keys(before), write), s.next, done, first, second, keys(before + 1))
  {
    hide Run, SystemInv, Happens, Agrees, ClaimsMinted, Answerable, C.Requested;
    var s := Run(retention, Initial(tenant, actor), events);
    var submit := [Submit(keys(before), write)];
    RunSystem(retention, tenant, actor, events);
    RunMinted(retention, tenant, actor, events);
    RequestShape(verb, path, o, keys, before, after, hadToken, done, out);
    RunOne(retention, s, Submit(keys(before), write));
    SubmitRun(retention, s, keys(before), write);
    RunKeepsInv(retention, s, submit);
    var submitted := Submitted(s, keys(before), write);
    var req := if |done| == 2 then NextRequest(submitted, s.next, keys(before + 1))
               else submitted.inbox[submitted.calls[s.next].phase.msg];
    FreshKeyAnswerable(retention, s, req, C.Last(done).reply);
    first, second := NetworkExists(retention, submitted, s.next, done, keys(before + 1));
  }

  /** A replay's fetches have such a network if the tables allow the last reply for the item's
      key: the whole of what an idle server could answer. */
  lemma RetryHasNetwork(retention: int, s: System, id: nat, done: seq<C.Fetch>, spare: string)
    returns (first: Meanwhile, second: Meanwhile)
    requires SystemInv(retention, s) && id in s.outbox && spare !in s.owner
    requires 1 <= |done| <= 2 && (|done| == 2 ==> done[0].reply == C.Response(401))
    requires Answerable(retention, s.server, Request(s.tenant, s.actor, s.outbox[id].key, s.outbox[id].write),
                        C.Last(done).reply)
    ensures Agrees(retention, Replayed(s, id), s.next, done, first, second, spare)
  {
    hide Run, SystemInv, Happens, Agrees, Answerable;
    RunOne(retention, s, StartReplay(id));
    ReplayRun(retention, s, id);
    RunKeepsInv(retention, s, [StartReplay(id)]);
    first, second := NetworkExists(retention, Replayed(s, id), s.next, done, spare);
  }
}
