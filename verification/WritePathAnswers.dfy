// What a request is told when the server has nothing else to do, as a run of the write path:
// every answer the tables allow, and what a replay gets once the retention is over.
module WritePathAnswers {
  import opened Prelude
  import opened IdempotencyServer
  import opened IdempotencySession
  import opened WritePath
  import opened WritePathRuns

  /** The code and the response for a request served alone whose work raises or yields this. */
  function Told(retention: int, s: Server, req: Request, work: Option<string>): (Code, string) {
    if req.write.guarded && Taken(retention, s.claims, req, s.now) then (Conflict, "")
    else if req.write.recorded && ScopeOf(req) in s.records then
      var r := s.records[ScopeOf(req)];
      if r.hash != req.write.hash then (Mismatch, "")
      else if r.response.Some? then (Success, r.response.value)
      else (InProgress, "")
    else if work.Some? then (Success, work.value)
    else (Failed, "")
  }

  predicate Replays(s: Server, req: Request) {
    req.write.recorded && ScopeOf(req) in s.records
  }

  /** The server after request m was served alone: only a success leaves something behind, and
      a replayed one no effect. */
  function Answered(retention: int, s: Server, m: nat, req: Request, work: Option<string>): Server {
    var (code, response) := Told(retention, s, req, work);
    var answered := s.(answers := s.answers + [Answer(m, req, code, response)]);
    if code != Success then answered
    else
      var claimed := answered.(claims := ClaimsWith(retention, s.claims, req, s.now));
      if Replays(s, req) then claimed
      else
        claimed.(records := if req.write.recorded
                            then s.records[ScopeOf(req) := Record(req.write.hash, Some(response))] else s.records,
                 effects := s.effects + [Effect(m, req, s.now, s.now, response)])
  }

  lemma LastAnswer(retention: int, s: Server, m: nat, req: Request, work: Option<string>)
    ensures var (code, response) := Told(retention, s, req, work);
            Answered(retention, s, m, req, work).answers == s.answers + [Answer(m, req, code, response)]
  {
    hide Told;
  }

  // ----- The statements of one request -----

  function ClaimSteps(m: nat): seq<Step> {
    [Unguarded(m)] + [Purge(m)] + [CheckClaim(m)] + [InsertClaim(m)]
  }

  function RecordSteps(m: nat): seq<Step> {
    [Start(m)] + [InsertRecord(m)]
  }

  function EndSteps(m: nat, work: Option<string>): seq<Step> {
    if work.Some? then [Execute(m, work.value)] + [Step.Commit(m)] else [Fail(m)]
  }

  function AllSteps(m: nat, req: Request, work: Option<string>): seq<Step> {
    [Begin(m, req)] + ClaimSteps(m) + RecordSteps(m) + EndSteps(m, work)
  }

  lemma Then(retention: int, s: Server, steps: seq<Step>, a: Step)
    ensures Interleave(retention, s, steps + [a]) == Next(retention, Interleave(retention, s, steps), a)
  {
    assert (steps + [a])[..|steps|] == steps;
  }

  lemma One(retention: int, s: Server, a: Step)
    ensures Interleave(retention, s, [a]) == Next(retention, s, a)
  {
    Then(retention, s, [], a);
    assert [] + [a] == [a];
  }

  lemma {:induction false} InterleaveConcat(retention: int, s: Server, a: seq<Step>, b: seq<Step>)
    ensures Interleave(retention, s, a + b) == Interleave(retention, Interleave(retention, s, a), b)
  {
    if b == [] {
      assert a + b == a;
    } else {
      var n := |b| - 1;
      InterleaveConcat(retention, s, a, b[..n]);
      Then(retention, s, a + b[..n], b[n]);
      assert a + b == a + b[..n] + [b[n]];
    }
  }

  /** Once the transaction is over its statements do nothing. */
  lemma OverClaim(retention: int, s: Server, m: nat)
    requires m !in s.txs
    ensures Interleave(retention, s, RecordSteps(m)) == s
    ensures forall work :: Interleave(retention, s, EndSteps(m, work)) == s
  {
    RecordUnrolled(retention, s, m);
    forall work ensures Interleave(retention, s, EndSteps(m, work)) == s {
      if work.None? {
        One(retention, s, Fail(m));
      } else {
        One(retention, s, Execute(m, work.value));
        Then(retention, s, [Execute(m, work.value)], Step.Commit(m));
      }
    }
  }

  /** The transaction once the guard has let its request in. */
  function Admitted(retention: int, s: Server, req: Request): Tx {
    if req.write.guarded then
      Tx(req, s.now, Phase.Claimed, StaleOf(retention, s.claims, req.tenant, s.now), s.now, Some(s.now), false, "")
    else Tx(req, s.now, Phase.Claimed, {}, s.now, None, false, "")
  }

  lemma ClaimUnrolled(retention: int, s: Server, m: nat)
    ensures Interleave(retention, s, ClaimSteps(m))
            == Next(retention, Next(retention, Next(retention, Next(retention, s, Unguarded(m)), Purge(m)),
                                    CheckClaim(m)), InsertClaim(m))
  {
    hide Interleave, Next;
    var e1 := [Unguarded(m)];
    One(retention, s, Unguarded(m));
    Then(retention, s, e1, Purge(m));
    Then(retention, s, e1 + [Purge(m)], CheckClaim(m));
    Then(retention, s, e1 + [Purge(m)] + [CheckClaim(m)], InsertClaim(m));
  }

  lemma RecordUnrolled(retention: int, s: Server, m: nat)
    ensures Interleave(retention, s, RecordSteps(m)) == Next(retention, Next(retention, s, Start(m)), InsertRecord(m))
  {
    hide Interleave, Next;
    One(retention, s, Start(m));
    Then(retention, s, [Start(m)], InsertRecord(m));
  }

  lemma Begins(retention: int, s: Server, m: nat, req: Request)
    requires !UsedId(s, m)
    ensures Next(retention, s, Begin(m, req)) == Update(s, m, Tx(req, s.now, Begun, {}, s.now, None, false, ""))
  {
  }

  lemma NotUnguarded(retention: int, s: Server, m: nat)
    requires m in s.txs && s.txs[m].req.write.guarded
    ensures Next(retention, s, Unguarded(m)) == s
  {
  }

  lemma ClaimPhase(retention: int, s: Server, m: nat, req: Request)
    requires s.txs == map[] && !UsedId(s, m)
    ensures var t := Interleave(retention, Next(retention, s, Begin(m, req)), ClaimSteps(m));
            t == if req.write.guarded && Taken(retention, s.claims, req, s.now) then
                   s.(answers := s.answers + [Answer(m, req, Conflict, "")])
                 else Update(s, m, Admitted(retention, s, req))
  {
    hide Interleave, UsedId, Next, Taken, ClaimSteps, StaleOf;
    var begun := Update(s, m, Tx(req, s.now, Begun, {}, s.now, None, false, ""));
    Begins(retention, s, m, req);
    ClaimUnrolled(retention, begun, m);
    if !req.write.guarded {
      UnguardedAlone(retention, begun, m);
    } else {
      NotUnguarded(retention, begun, m);
      if Taken(retention, s.claims, req, s.now) {
        RefusedAlone(retention, s, m, req);
        NoInsert(retention, s.(answers := s.answers + [Answer(m, req, Conflict, "")]), m);
      } else {
        ClaimFree(retention, s, m, req);
      }
    }
  }

  lemma NoInsert(retention: int, s: Server, m: nat)
    requires m !in s.txs
    ensures Next(retention, s, InsertClaim(m)) == s
  {
  }

  lemma UnguardedAlone(retention: int, s: Server, m: nat)
    requires Alone(s, m, Begun) && !s.txs[m].req.write.guarded
    ensures var t := Update(s, m, s.txs[m].(phase := Phase.Claimed));
            && Next(retention, s, Unguarded(m)) == t && Next(retention, t, Purge(m)) == t
            && Next(retention, t, CheckClaim(m)) == t && Next(retention, t, InsertClaim(m)) == t
  {
  }

  lemma AdmittedClaims(retention: int, s: Server, req: Request)
    ensures ClaimsAfter(s.claims, Admitted(retention, s, req)) == ClaimsWith(retention, s.claims, req, s.now)
  {
    assert s.claims - {} == s.claims;
  }

  lemma RecordPhase(retention: int, s: Server, m: nat, req: Request, work: Option<string>)
    requires s.txs == map[] && !(req.write.guarded && Taken(retention, s.claims, req, s.now))
    ensures var admitted := Admitted(retention, s, req);
            var t := Interleave(retention, Update(s, m, admitted), RecordSteps(m));
            if Replays(s, req) then t == Answered(retention, s, m, req, work)
            else t == Update(s, m, admitted.(phase := Ready, holdsRecord := req.write.recorded))
  {
    hide Interleave, Next, Taken, StaleOf, RecordSteps, Answered, FromRecord;
    var u := Update(s, m, Admitted(retention, s, req));
    RecordUnrolled(retention, u, m);
    RecordAlone(retention, u, m);
    if Replays(s, req) {
      FromRecordAlone(retention, s, m, req, work);
      AnsweredIdle(retention, s, m, req, work);
      NoInsertRecord(retention, FromRecord(u, m), m);
    } else if !req.write.recorded {
      RecordFree(retention, u, m);
    }
  }

  lemma AnsweredIdle(retention: int, s: Server, m: nat, req: Request, work: Option<string>)
    ensures Answered(retention, s, m, req, work).txs == s.txs && Answered(retention, s, m, req, work).now == s.now
  {
  }

  lemma NoInsertRecord(retention: int, s: Server, m: nat)
    requires m !in s.txs
    ensures Next(retention, s, InsertRecord(m)) == s
  {
  }

  lemma FromRecordAlone(retention: int, s: Server, m: nat, req: Request, work: Option<string>)
    requires s.txs == map[] && !(req.write.guarded && Taken(retention, s.claims, req, s.now)) && Replays(s, req)
    ensures FromRecord(Update(s, m, Admitted(retention, s, req)), m) == Answered(retention, s, m, req, work)
  {
    hide Taken, ClaimsWith, StaleOf, ClaimsAfter;
    AdmittedClaims(retention, s, req);
    assert Update(s, m, Admitted(retention, s, req)).txs - {m} == s.txs;
  }

  lemma EndPhase(retention: int, s: Server, m: nat, req: Request, work: Option<string>)
    requires s.txs == map[] && !(req.write.guarded && Taken(retention, s.claims, req, s.now)) && !Replays(s, req)
    ensures var ready := Admitted(retention, s, req).(phase := Ready, holdsRecord := req.write.recorded);
            Interleave(retention, Update(s, m, ready), EndSteps(m, work)) == Answered(retention, s, m, req, work)
  {
    hide Taken, ClaimsWith, StaleOf, ClaimsAfter, Interleave;
    var ready := Admitted(retention, s, req).(phase := Ready, holdsRecord := req.write.recorded);
    var u := Update(s, m, ready);
    assert u.txs == map[m := ready] && map[m := ready] - {m} == s.txs;
    AdmittedClaims(retention, s, req);
    SameClaims(s.claims, Admitted(retention, s, req), ready);
    if work.None? {
      One(retention, u, Fail(m));
    } else {
      One(retention, u, Execute(m, work.value));
      Then(retention, u, [Execute(m, work.value)], Step.Commit(m));
      hide Next, Publish;
      CommitAlone(retention, u, m, work.value);
      CommitsAdmitted(retention, s, m, req, work.value);
    }
  }

  lemma SameClaims(claims: map<ClaimKey, int>, t: Tx, u: Tx)
    requires u.purged == t.purged && u.claimedAt == t.claimedAt && u.req == t.req && u.started == t.started
    ensures ClaimsAfter(claims, u) == ClaimsAfter(claims, t)
  {
  }

  lemma CommitsAdmitted(retention: int, s: Server, m: nat, req: Request, response: string)
    requires s.txs == map[] && !(req.write.guarded && Taken(retention, s.claims, req, s.now)) && !Replays(s, req)
    ensures var done := Admitted(retention, s, req).(phase := Done, holdsRecord := req.write.recorded,
                                                     response := response);
            Publish(s.(txs := map[m := done]), m) == Answered(retention, s, m, req, Some(response))
  {
    hide Taken, ClaimsWith, StaleOf, ClaimsAfter;
    var done := Admitted(retention, s, req).(phase := Done, holdsRecord := req.write.recorded, response := response);
    AdmittedClaims(retention, s, req);
    SameClaims(s.claims, Admitted(retention, s, req), done);
    assert map[m := done] - {m} == s.txs;
  }

  /** The statements of one request on an idle server end in its answer, and nothing else. */
  lemma AnswersAlone(retention: int, s: Server, m: nat, req: Request, work: Option<string>)
    requires s.txs == map[] && !UsedId(s, m)
    ensures Interleave(retention, s, AllSteps(m, req, work)) == Answered(retention, s, m, req, work)
  {
    var e1 := [Begin(m, req)];
    One(retention, s, Begin(m, req));
    InterleaveConcat(retention, s, e1, ClaimSteps(m));
    InterleaveConcat(retention, s, e1 + ClaimSteps(m), RecordSteps(m));
    InterleaveConcat(retention, s, e1 + ClaimSteps(m) + RecordSteps(m), EndSteps(m, work));
    hide Interleave, Next, UsedId, Taken, StaleOf, ClaimsWith, ClaimSteps, RecordSteps, EndSteps;
    ClaimPhase(retention, s, m, req);
    if req.write.guarded && Taken(retention, s.claims, req, s.now) {
      OverClaim(retention, s.(answers := s.answers + [Answer(m, req, Conflict, "")]), m);
    } else {
      RecordPhase(retention, s, m, req, work);
      if Replays(s, req) {
        OverClaim(retention, Answered(retention, s, m, req, work), m);
      } else {
        EndPhase(retention, s, m, req, work);
      }
    }
  }

  // ----- As events of the write path -----

  function Does(steps: seq<Step>): seq<Event> {
    seq(|steps|, i requires 0 <= i < |steps| => ServerDoes(steps[i]))
  }

  lemma {:induction false} DoesRun(retention: int, s: System, steps: seq<Step>)
    requires forall a :: a in steps ==> !a.Begin? && !a.Reject?
    ensures Run(retention, s, Does(steps)) == s.(server := Interleave(retention, s.server, steps))
  {
    if steps != [] {
      var n := |steps| - 1;
      DoesRun(retention, s, steps[..n]);
      assert Does(steps) == Does(steps[..n]) + [ServerDoes(steps[n])];
      ServerPush(retention, s, Does(steps[..n]), steps[n]);
    }
  }

  /** Message m is delivered and served from its first statement to its last. */
  function AnswerEvents(m: nat, work: Option<string>): seq<Event> {
    [Deliver(m)] + Does(ClaimSteps(m) + RecordSteps(m) + EndSteps(m, work))
  }

  lemma Answers(retention: int, s: System, m: nat, work: Option<string>)
    requires m in s.inbox && s.server.txs == map[] && !UsedId(s.server, m)
    ensures Run(retention, s, AnswerEvents(m, work))
              == s.(inbox := s.inbox - {m}, server := Answered(retention, s.server, m, s.inbox[m], work))
  {
    hide Run, Interleave, UsedId, Next;
    var req, steps := s.inbox[m], ClaimSteps(m) + RecordSteps(m) + EndSteps(m, work);
    AnswersAlone(retention, s.server, m, req, work);
    RunConcat(retention, s, [Deliver(m)], Does(steps));
    RunOne(retention, s, Deliver(m));
    DeliverEvent(retention, s, m);
    var t := Happens(retention, s, Deliver(m));
    DoesRun(retention, t, steps);
    assert AllSteps(m, req, work) == [Begin(m, req)] + steps;
    InterleaveConcat(retention, s.server, [Begin(m, req)], steps);
    One(retention, s.server, Begin(m, req));
  }

  // ----- An idle server -----

  /** Whatever is open can crash, one transaction after the other, and leaves nothing behind. */
  lemma {:induction false} CanIdle(retention: int, s: Server) returns (steps: seq<Step>)
    ensures forall a :: a in steps ==> a.Crash?
    ensures Interleave(retention, s, steps) == s.(txs := map[])
    decreases |s.txs|
  {
    if s.txs == map[] {
      steps := [];
    } else {
      var id :| id in s.txs;
      var t := s.(txs := s.txs - {id});
      assert t.txs.Keys == s.txs.Keys - {id};
      assert |t.txs.Keys| < |s.txs.Keys|;
      var rest := CanIdle(retention, t);
      steps := [Crash(id)] + rest;
      One(retention, s, Crash(id));
      InterleaveConcat(retention, s, [Crash(id)], rest);
    }
  }
}
