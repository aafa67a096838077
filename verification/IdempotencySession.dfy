// The functions of idempotency.py and the unit of work as they run, one request at a time on
// one session.  Every statement is one step of the interleaved server, so whatever holds in
// all its runs holds here.
module IdempotencySession {
  import opened Prelude
  import opened IdempotencyServer

  /** The claim table after a request whose claim was committed at this time. */
  function ClaimsWith(retention: int, claims: map<ClaimKey, int>, req: Request, now: int): map<ClaimKey, int> {
    if !req.write.guarded then claims
    else (claims - StaleOf(retention, claims, req.tenant, now))[ClaimOf(req) := now]
  }

  function StaleOf(retention: int, claims: map<ClaimKey, int>, tenant: string, now: int): set<ClaimKey> {
    set k | k in claims && k.tenant == tenant && Stale(retention, claims[k], now)
  }

  /** A claim of the request's key that still stands. */
  predicate Taken(retention: int, claims: map<ClaimKey, int>, req: Request, now: int) {
    ClaimOf(req) in claims && !Stale(retention, claims[ClaimOf(req)], now)
  }

  /** What the session's own tables show while transaction t is open. */
  ghost predicate Shows(openClaims: map<ClaimKey, int>, openRecords: map<Scope, Record>, s: Server, t: Tx) {
    && openClaims == ClaimsAfter(s.claims, t)
    && openRecords == if !t.holdsRecord then s.records
                      else
                        var response := if t.phase == Done then Some(t.response) else None;
                        s.records[ScopeOf(t.req) := Record(t.req.write.hash, response)]
  }

  ghost predicate Untouched(before: Server, after: Server) {
    after.claims == before.claims && after.records == before.records && after.effects == before.effects
  }

  /** What the endpoint does once the guard has let the request in, the open claims being these:
      refuse, replay, fail or execute. */
  ghost predicate Executed(before: Server, after: Server, openClaims: map<ClaimKey, int>, id: nat, req: Request,
                           work: Option<string>, code: Code, response: string)
  {
    var c := ScopeOf(req);
    if req.write.recorded && c in before.records then
      if before.records[c].hash != req.write.hash then code == Mismatch && Untouched(before, after)
      else
        && code == Success && Some(response) == before.records[c].response
        && after.claims == openClaims && after.records == before.records && after.effects == before.effects
    else if work.None? then code == Failed && Untouched(before, after)
    else
      && code == Success && response == work.value && after.claims == openClaims
      && after.records == (if !req.write.recorded then before.records
                           else before.records[c := Record(req.write.hash, Some(response))])
      && after.effects == before.effects + [Effect(id, req, before.now, before.now, response)]
  }

  /** What one request does to the tables and is told, with nobody else at work. */
  ghost predicate Served(retention: int, before: Server, after: Server, id: nat, req: Request,
                         work: Option<string>, code: Code, response: string)
  {
    if req.write.guarded && Taken(retention, before.claims, req, before.now) then
      code == Conflict && Untouched(before, after)
    else Executed(before, after, ClaimsWith(retention, before.claims, req, before.now), id, req, work, code, response)
  }

  ghost predicate SameHistory(s: Server, t: Server) {
    s.effects == t.effects && s.answers == t.answers
  }

  lemma {:induction false} Snoc(retention: int, steps: seq<Step>, a: Step)
    ensures Interleave(retention, START, steps + [a]) == Next(retention, Interleave(retention, START, steps), a)
  {
    assert (steps + [a])[..|steps|] == steps;
  }

  // ----- The steps of the only open transaction -----

  predicate Alone(s: Server, id: nat, phase: Phase) {
    id in s.txs && s.txs.Keys == {id} && s.txs[id].phase == phase
  }

  lemma AloneNobodyWaits(s: Server, id: nat)
    requires s.txs.Keys <= {id}
    ensures forall k :: !ClaimLocked(s, id, k)
    ensures forall c :: !RecordLocked(s, id, c)
  {}

  lemma PurgeAlone(retention: int, s: Server, id: nat)
    requires Alone(s, id, Begun) && s.txs[id].req.write.guarded
    ensures var stale := StaleOf(retention, s.claims, s.txs[id].req.tenant, s.now);
            Next(retention, s, Purge(id))
              == Update(s, id, s.txs[id].(phase := Purged, purged := stale, purgedAt := s.now))
  {
    AloneNobodyWaits(s, id);
    assert StaleOf(retention, s.claims, s.txs[id].req.tenant, s.now) == StaleClaims(retention, s, s.txs[id].req.tenant);
  }

  lemma ClaimAlone(retention: int, s: Server, id: nat)
    requires Alone(s, id, Purged)
    ensures var t, checked := s.txs[id], Next(retention, s, CheckClaim(id));
            if ClaimOf(t.req) in s.claims && ClaimOf(t.req) !in t.purged then checked == Abort(s, id, Conflict)
            else Next(retention, checked, InsertClaim(id))
                 == Update(s, id, t.(phase := Phase.Claimed, claimedAt := Some(s.now)))
  {
    var checked := Update(s, id, s.txs[id].(phase := Checked));
    AloneNobodyWaits(checked, id);
    var t := s.txs[id].(phase := Phase.Claimed, claimedAt := Some(s.now));
    assert Update(checked, id, t) == Update(s, id, t);
  }

  lemma RecordAlone(retention: int, s: Server, id: nat)
    requires Alone(s, id, Phase.Claimed)
    ensures var t, started := s.txs[id], Next(retention, s, Start(id));
            if !t.req.write.recorded then started == Update(s, id, t.(phase := Ready))
            else if ScopeOf(t.req) in s.records then started == FromRecord(s, id)
            else Next(retention, started, InsertRecord(id)) == Update(s, id, t.(phase := Ready, holdsRecord := true))
  {
    var started := Update(s, id, s.txs[id].(phase := Selected));
    AloneNobodyWaits(started, id);
    var t := s.txs[id].(phase := Ready, holdsRecord := true);
    assert Update(started, id, t) == Update(s, id, t);
  }

  /** Where the transaction ends: refused, failed, replayed or committed. */
  lemma EndAlone(retention: int, s: Server, id: nat, openClaims: map<ClaimKey, int>, openRecords: map<Scope, Record>)
    requires Alone(s, id, Ready) || Alone(s, id, Done) || Alone(s, id, Phase.Claimed)
    requires Shows(openClaims, openRecords, s, s.txs[id])
    ensures s.txs[id].phase == Ready ==> Next(retention, s, Fail(id)) == Abort(s, id, Failed)
    ensures s.txs[id].phase == Done ==>
              var t, after := s.txs[id], Next(retention, s, Step.Commit(id));
              && after.txs.Keys == {} && after.now == s.now && after.claims == openClaims
                 && after.records == openRecords
              && after.answers == s.answers + [Answer(id, t.req, Success, t.response)]
              && after.records == (if !t.holdsRecord then s.records
                                   else s.records[ScopeOf(t.req) := Record(t.req.write.hash, Some(t.response))])
              && (t.started == s.now && t.claimedAt in {None, Some(s.now)} ==>
                    after.effects == s.effects + [Effect(id, t.req, s.now, s.now, t.response)])
    ensures s.txs[id].phase == Phase.Claimed && !s.txs[id].holdsRecord ==>
              forall response ::
                var after := Replay(s, id, response);
                && after.txs.Keys == {} && after.now == s.now && after.claims == openClaims
                   && after.records == openRecords
                && after.answers == s.answers + [Answer(id, s.txs[id].req, Success, response)]
                && after.effects == s.effects && after.records == s.records
  {}

  lemma AbortAlone(s: Server, id: nat, code: Code)
    requires id in s.txs && s.txs.Keys == {id}
    ensures var after := Abort(s, id, code);
            && after.txs.Keys == {} && after.now == s.now && after.claims == s.claims && after.records == s.records
            && after.answers == s.answers + [Answer(id, s.txs[id].req, code, "")] && after.effects == s.effects
  {}

  class Session {
    const retention: int
    var now: int
    var claims: map<ClaimKey, int>         // committed
    var records: map<Scope, Record>
    var openClaims: map<ClaimKey, int>     // as the open transaction sees them
    var openRecords: map<Scope, Record>
    ghost var run: Server
    ghost var steps: seq<Step>

    ghost predicate Mirrors()
      reads this
    {
      && run == Interleave(retention, START, steps)
      && claims == run.claims && records == run.records && now == run.now
    }

    ghost predicate Idle()
      reads this
    {
      Mirrors() && run.txs.Keys == {}
    }

    ghost predicate Open(id: nat, req: Request, phase: Phase)
      reads this
    {
      && Mirrors() && Alone(run, id, phase) && run.txs[id].req == req && run.txs[id].started == now
      && (run.txs[id].holdsRecord ==> phase in {Ready, Done}) && run.txs[id].claimedAt in {None, Some(now)}
      && Shows(openClaims, openRecords, run, run.txs[id])
    }

    constructor (retention: int)
      ensures Idle() && this.retention == retention && run == START
    {
      this.retention := retention;
      now, claims, records, openClaims, openRecords := 0, map[], map[], map[], map[];
      run, steps := START, [];
    }

    ghost method Do(a: Step)
      requires run == Interleave(retention, START, steps)
      modifies this`run, this`steps
      ensures run == Interleave(retention, START, steps)
      ensures run == Next(retention, old(run), a) && steps == old(steps) + [a]
    {
      Snoc(retention, steps, a);
      run, steps := Next(retention, run, a), steps + [a];
    }

    method Advance(d: nat)
      requires Idle()
      modifies this`now, this`run, this`steps
      ensures Idle() && now == old(now) + d
    {
      now := now + d;
      Do(Tick(d));
    }

    // ----- UnitOfWork -----

    method Enter(id: nat, req: Request)
      requires Idle() && !UsedId(run, id)
      modifies this`openClaims, this`openRecords, this`run, this`steps
      ensures Open(id, req, Begun) && openClaims == claims && openRecords == records
      ensures steps == old(steps) + [Begin(id, req)]
      ensures run == Update(old(run), id, Tx(req, now, Begun, {}, now, None, false, ""))
    {
      openClaims, openRecords := claims, records;
      Do(Begin(id, req));
    }

    method Commit()
      modifies this`claims, this`records
      ensures claims == openClaims && records == openRecords
    {
      claims, records := openClaims, openRecords;
    }

    method Rollback()
      modifies this`openClaims, this`openRecords
      ensures openClaims == claims && openRecords == records
    {
      openClaims, openRecords := claims, records;
    }

    // ----- idempotency.py -----

    method PurgeStaleKeyClaims(id: nat, req: Request) returns (deleted: nat)
      requires Open(id, req, Begun) && req.write.guarded && openClaims == claims
      modifies this`openClaims, this`run, this`steps
      ensures Open(id, req, Purged) && SameHistory(run, old(run)) && old(steps) <= steps
      ensures run.txs[id].purged == StaleOf(retention, claims, req.tenant, now)
      ensures openClaims == claims - StaleOf(retention, claims, req.tenant, now)
      ensures deleted == |StaleOf(retention, claims, req.tenant, now)|
    {
      deleted := 0;
      assert retention <= 0 ==> StaleOf(retention, claims, req.tenant, now) == {};
      if retention > 0 {
        var cutoff := now - retention;
        var doomed := set k | k in openClaims && k.tenant == req.tenant && openClaims[k] < cutoff;
        assert doomed == StaleOf(retention, claims, req.tenant, now);
        openClaims, deleted := openClaims - doomed, |doomed|;
      }
      PurgeAlone(retention, run, id);
      Do(Purge(id));
    }

    /** The claim goes into the open transaction, or the key is taken and nothing is written. */
    method ClaimIdempotencyKey(id: nat, req: Request) returns (claimed: bool)
      requires Open(id, req, Begun) && req.write.guarded && openClaims == claims
      modifies this`openClaims, this`run, this`steps
      ensures claimed <==> !Taken(retention, claims, req, now)
      ensures SameHistory(run, old(run))
      ensures if claimed then Open(id, req, Phase.Claimed) && openClaims == ClaimsWith(retention, claims, req, now)
              else Open(id, req, Purged) && ClaimOf(req) in claims && ClaimOf(req) !in run.txs[id].purged
      ensures old(steps) <= steps
    {
      var _ := PurgeStaleKeyClaims(id, req);
      if ClaimOf(req) in openClaims { return false; }
      ClaimAlone(retention, run, id);
      Do(CheckClaim(id));
      openClaims := openClaims[ClaimOf(req) := now];
      Do(InsertClaim(id));
      claimed := true;
    }

    /** start_idempotent_request: nothing to store, a stored response to replay, a refusal, or a
        new record still without its response. */
    method StartIdempotentRequest(id: nat, req: Request) returns (start: Result<Option<string>, Code>)
      requires Open(id, req, Phase.Claimed)
      modifies this`openRecords, this`run, this`steps
      ensures if req.write.recorded && ScopeOf(req) in records then
                && run == old(run) && openRecords == records && Open(id, req, Phase.Claimed)
                && var r := records[ScopeOf(req)];
                   start == if r.hash != req.write.hash then Err(Mismatch)
                            else if r.response.Some? then Ok(r.response) else Err(InProgress)
              else start == Ok(None) && Open(id, req, Ready) && SameHistory(run, old(run))
                   && (run.txs[id].holdsRecord <==> req.write.recorded)
      ensures old(steps) <= steps
    {
      RecordAlone(retention, run, id);
      if !req.write.recorded {
        Do(Start(id));
        return Ok(None);
      }
      if ScopeOf(req) in openRecords {
        var r := openRecords[ScopeOf(req)];
        if r.hash != req.write.hash { return Err(Mismatch); }
        if r.response.Some? { return Ok(r.response); }
        return Err(InProgress);
      }
      Do(Start(id));
      openRecords := openRecords[ScopeOf(req) := Record(req.write.hash, None)];
      Do(InsertRecord(id));
      start := Ok(None);
    }

    /** finalize_idempotent_request: the record of this request, if there is one, gets its response. */
    method FinalizeIdempotentRequest(id: nat, req: Request, response: string)
      requires Open(id, req, Ready) && (run.txs[id].holdsRecord <==> req.write.recorded)
      modifies this`openRecords, this`run, this`steps
      ensures Open(id, req, Done) && SameHistory(run, old(run)) && old(steps) <= steps
      ensures run.txs[id].response == response && (run.txs[id].holdsRecord <==> req.write.recorded)
    {
      if req.write.recorded {
        openRecords := openRecords[ScopeOf(req) := openRecords[ScopeOf(req)].(response := Some(response))];
      }
      Do(Execute(id, response));
    }

    // ----- A whole request -----

    lemma StoredResponses()
      requires Mirrors()
      ensures forall c :: c in records ==> records[c].response.Some?
    {
      RunServer(retention, steps);
    }

    /** Without a tenant or a key the guard does nothing. */
    ghost method Skip(id: nat, req: Request)
      requires Open(id, req, Begun) && !req.write.guarded
      modifies this`run, this`steps
      ensures Open(id, req, Phase.Claimed) && SameHistory(run, old(run)) && old(steps) <= steps
    {
      Do(Unguarded(id));
    }

    /** The endpoint under its unit of work. */
    method RunEndpoint(id: nat, req: Request, work: Option<string>) returns (code: Code, response: string)
      requires Open(id, req, Phase.Claimed)
      modifies this
      ensures Idle() && now == old(now) && old(steps) <= steps
      ensures run.answers == old(run).answers + [Answer(id, req, code, response)]
      ensures Executed(old(run), run, old(openClaims), id, req, work, code, response)
    {
      hide Next, Apply, Interleave, Shows, Abort, Replay, Publish;
      StoredResponses();
      RecordAlone(retention, run, id);
      EndAlone(retention, run, id, openClaims, openRecords);
      var start := StartIdempotentRequest(id, req);
      if start.Err? {
        AbortAlone(run, id, start.error);
        Do(Start(id));
        Rollback();
        return start.error, "";
      }
      if start.value.Some? {
        Do(Start(id));
        Commit();
        return Success, start.value.value;
      }
      if work.None? {
        EndAlone(retention, run, id, openClaims, openRecords);
        AbortAlone(run, id, Failed);
        Do(Fail(id));
        Rollback();
        return Failed, "";
      }
      Complete(id, req, work.value);
      return Success, work.value;
    }

    /** The work is done: the record gets the response and the unit of work commits it all. */
    method Complete(id: nat, req: Request, response: string)
      requires Open(id, req, Ready) && (run.txs[id].holdsRecord <==> req.write.recorded)
      modifies this
      ensures Idle() && now == old(now) && old(steps) <= steps
      ensures claims == old(openClaims)
      ensures records == if !req.write.recorded then old(records)
                         else old(records)[ScopeOf(req) := Record(req.write.hash, Some(response))]
      ensures run.answers == old(run.answers) + [Answer(id, req, Success, response)]
      ensures run.effects == old(run.effects) + [Effect(id, req, now, now, response)]
    {
      hide Next, Apply, Interleave, Publish;
      FinalizeIdempotentRequest(id, req, response);
      EndAlone(retention, run, id, openClaims, openRecords);
      Do(Step.Commit(id));
      Commit();
    }

    /** One write request: the guard, the endpoint under its unit of work, the answer.  The work
        itself either raises or yields a response. */
    method Handle(id: nat, req: Request, work: Option<string>) returns (code: Code, response: string)
      requires Idle() && !UsedId(run, id)
      modifies this
      ensures Idle() && now == old(now) && old(steps) <= steps
      ensures run.answers == old(run).answers + [Answer(id, req, code, response)]
      ensures Served(retention, old(run), run, id, req, work, code, response)
    {
      hide Next, Apply, Interleave, Shows, Abort, Replay, Publish, UsedId;
      Enter(id, req);
      if req.write.guarded {
        var claimed := ClaimIdempotencyKey(id, req);
        if !claimed {
          ClaimAlone(retention, run, id);
          AbortAlone(run, id, Conflict);
          Do(CheckClaim(id));
          Rollback();
          return Conflict, "";
        }
      } else {
        Skip(id, req);
      }
      code, response := RunEndpoint(id, req, work);
    }
  }
}
