// What the columns of the two idempotency tables decide, statement by statement: the answer of a
// request served alone, the outcomes of the two races, and that only a success changes the tables.
module IdempotencyAnswers {
  import opened Prelude
  import opened IdempotencyServer
  import opened WritePathAnswers

  /** A claim of the tenant's key that a purge would leave. */
  predicate Claimed(retention: int, s: Server, tenant: string, key: string) {
    var k := ClaimKey(tenant, key);
    k in s.claims && (retention <= 0 || s.now <= s.claims[k] + retention)
  }

  predicate HasRecord(s: Server, req: Request) {
    Scope(req.tenant, req.actor, req.write.endpoint, req.key) in s.records
  }

  function RecordFor(s: Server, req: Request): Record
    requires HasRecord(s, req)
  {
    s.records[Scope(req.tenant, req.actor, req.write.endpoint, req.key)]
  }

  /** What a request is answered while no other is open. */
  predicate AnsweredRight(retention: int, s: Server, req: Request, work: Option<string>, code: Code, response: string) {
    if req.write.guarded && Claimed(retention, s, req.tenant, req.key) then code == Conflict
    else if req.write.recorded && HasRecord(s, req) then
      var r := RecordFor(s, req);
      if r.hash != req.write.hash then code == Mismatch
      else if r.response == None then code == InProgress
      else code == Success && Some(response) == r.response
    else if work == None then code == Failed
    else code == Success && Some(response) == work
  }

  /** The claims after a success: the tenant's stale ones are gone, the own one is of now, and
      every other is as before. */
  ghost predicate ClaimsRight(retention: int, s: Server, t: Server, req: Request) {
    forall k ::
      if k == ClaimKey(req.tenant, req.key) then k in t.claims && t.claims[k] == s.now
      else if k in s.claims && !(k.tenant == req.tenant && retention > 0 && s.claims[k] + retention < s.now) then
        k in t.claims && t.claims[k] == s.claims[k]
      else k !in t.claims
  }

  /** A request served alone: its answer, and every table after it.  Only a success changes a
      table, and only one without a record takes effect. */
  lemma ServedRight(retention: int, s: Server, m: nat, req: Request, work: Option<string>)
    requires s.txs == map[] && !UsedId(s, m)
    ensures var t := Interleave(retention, s, AllSteps(m, req, work));
            && |t.answers| == |s.answers| + 1 && t.answers[..|s.answers|] == s.answers && t.txs == map[]
               && t.now == s.now
            && var a := t.answers[|s.answers|];
            && a.id == m && a.req == req && AnsweredRight(retention, s, req, work, a.code, a.response)
            && (if a.code == Success && req.write.guarded then ClaimsRight(retention, s, t, req)
                else t.claims == s.claims)
            && (if a.code != Success || (req.write.recorded && HasRecord(s, req)) then
                  t.records == s.records && t.effects == s.effects
                else
                  && t.effects == s.effects + [Effect(m, req, s.now, s.now, a.response)]
                  && t.records == if !req.write.recorded then s.records
                                  else s.records[Scope(req.tenant, req.actor, req.write.endpoint, req.key) :=
                                                 Record(req.write.hash, Some(a.response))])
  {
    hide Interleave, UsedId, AllSteps;
    AnswersAlone(retention, s, m, req, work);
  }

  // ----- Races -----

  /** Somebody else has committed a claim of the key since this request looked: the insert violates
      the unique index, the request fails, and no table changes. */
  lemma ClaimRaceLost(retention: int, s: Server, id: nat)
    requires At(s, id, Checked) && ClaimKey(s.txs[id].req.tenant, s.txs[id].req.key) in s.claims
    requires ClaimKey(s.txs[id].req.tenant, s.txs[id].req.key) !in s.txs[id].purged
    requires forall o :: o in s.txs && o != id ==> s.txs[o].claimedAt.None? && s.txs[o].purged == {}
    ensures Next(retention, s, InsertClaim(id))
            == s.(txs := s.txs - {id}, answers := s.answers + [Answer(id, s.txs[id].req, Failed, "")])
  {
  }

  /** While another open request has inserted or deleted a claim of the key, the insert waits. */
  lemma ClaimWaits(retention: int, s: Server, id: nat, o: nat)
    requires At(s, id, Checked) && o in s.txs && o != id
    requires var k := ClaimKey(s.txs[id].req.tenant, s.txs[id].req.key);
             || k in s.txs[o].purged
             || (s.txs[o].claimedAt.Some? && s.txs[o].req.tenant == k.tenant && s.txs[o].req.key == k.key)
    ensures Next(retention, s, InsertClaim(id)) == s
  {
    assert ClaimLocked(s, id, ClaimOf(s.txs[id].req));
  }

  /** Somebody else has committed a record of the request since this request looked: everything it
      did is rolled back, its claim and its purge included, and the record answers it. */
  lemma RecordRaceLost(retention: int, s: Server, id: nat)
    requires At(s, id, Selected) && HasRecord(s, s.txs[id].req)
    requires forall o :: o in s.txs && o != id ==> !s.txs[o].holdsRecord
    ensures var t, req := Next(retention, s, InsertRecord(id)), s.txs[id].req;
            var r := RecordFor(s, req);
            && t.txs == s.txs - {id} && t.claims == s.claims && t.records == s.records && t.effects == s.effects
            && t.answers == s.answers + [if r.hash != req.write.hash then Answer(id, req, Mismatch, "")
                                         else if r.response.Some? then Answer(id, req, Success, r.response.value)
                                         else Answer(id, req, InProgress, "")]
  {
    assert !RecordLocked(s, id, ScopeOf(s.txs[id].req));
    assert s.claims - {} == s.claims;
  }

  /** While another open request holds a record for the same columns, the insert waits. */
  lemma RecordWaits(retention: int, s: Server, id: nat, o: nat)
    requires At(s, id, Selected) && o in s.txs && o != id && s.txs[o].holdsRecord
    requires var p, q := s.txs[id].req, s.txs[o].req;
             p.tenant == q.tenant && p.actor == q.actor && p.write.endpoint == q.write.endpoint && p.key == q.key
    ensures Next(retention, s, InsertRecord(id)) == s
  {
    assert RecordLocked(s, id, ScopeOf(s.txs[id].req));
  }

  predicate Gone(retention: int, s: Server, tenant: string, k: ClaimKey) {
    k in s.claims && k.tenant == tenant && retention > 0 && s.claims[k] + retention < s.now
  }

  /** The purge takes the tenant's claims that are older than the retention, and waits while
      another open request has deleted or inserted one of them. */
  lemma PurgeDoes(retention: int, s: Server, id: nat)
    requires At(s, id, Begun) && s.txs[id].req.write.guarded
    ensures var t, tx := Next(retention, s, Purge(id)), s.txs[id];
            if exists o, k ::
                 o in s.txs && o != id && Gone(retention, s, tx.req.tenant, k)
                 && (k in s.txs[o].purged
                     || (s.txs[o].claimedAt.Some? && k == ClaimKey(s.txs[o].req.tenant, s.txs[o].req.key)))
            then t == s
            else
              && id in t.txs && t == s.(txs := s.txs[id := t.txs[id]]) && t.txs[id].phase == Purged
              && (forall k :: k in t.txs[id].purged <==> Gone(retention, s, tx.req.tenant, k))
  {
    var tenant := s.txs[id].req.tenant;
    assert forall k :: k in StaleClaims(retention, s, tenant) <==> Gone(retention, s, tenant, k);
    hide Gone, StaleClaims;
  }

  // ----- Only a success changes the tables -----

  /** The own claim is stamped with the start of the transaction, what it purged is gone, and no
      other claim changes. */
  ghost predicate ClaimsCommitted(s: Server, after: Server, t: Tx) {
    forall k ::
      if t.claimedAt.Some? && k == ClaimKey(t.req.tenant, t.req.key) then k in after.claims
        && after.claims[k] == t.started
      else if k in s.claims && k !in t.purged then k in after.claims && after.claims[k] == s.claims[k]
      else k !in after.claims
  }

  ghost predicate TablesRight(s: Server, t: Server, a: Step) {
    && (|t.answers| == |s.answers| || (|t.answers| == |s.answers| + 1 && t.answers[|s.answers|].code != Success) ==>
        t.claims == s.claims && t.records == s.records && t.effects == s.effects)
    && (|t.answers| == |s.answers| + 1 && t.answers[|s.answers|].code == Success && !a.InsertRecord? ==>
        !a.Tick? && a.id in s.txs && ClaimsCommitted(s, t, s.txs[a.id]))
    && |s.answers| <= |t.answers| <= |s.answers| + 1 && |s.effects| <= |t.effects| <= |s.effects| + 1
  }

  /** Whatever else is open: a statement that answers nobody with success leaves claims, records
      and effects alone, and one that does publishes just its own transaction. */
  lemma OnlySuccessChangesTables(retention: int, s: Server, a: Step)
    ensures TablesRight(s, Next(retention, s, a), a)
  {
    if a.Commit? {
      hide Apply, Enabled;
      CommitDoes(retention, s, a.id);
    } else if a.Start? {
      hide Next, TablesRight;
      StartTables(retention, s, a.id);
    } else if a.InsertRecord? {
      hide Next, TablesRight;
      RecordTables(retention, s, a.id);
    } else {
      hide ClaimLocked, StaleClaims, UsedId, ClaimOf, ScopeOf;
    }
  }

  lemma StartTables(retention: int, s: Server, id: nat)
    ensures TablesRight(s, Next(retention, s, Start(id)), Start(id))
  {
  }

  lemma RecordTables(retention: int, s: Server, id: nat)
    ensures TablesRight(s, Next(retention, s, InsertRecord(id)), InsertRecord(id))
  {
    hide RecordLocked;
    assert s.claims - {} == s.claims;
  }

  /** COMMIT after the work: one effect with its times, the response in the record, the claim. */
  lemma CommitDoes(retention: int, s: Server, id: nat)
    ensures var t := Next(retention, s, Step.Commit(id));
            if !At(s, id, Done) then t == s
            else
              var tx := s.txs[id];
              && t.txs == s.txs - {id} && t.now == s.now && ClaimsCommitted(s, t, tx)
              && t.answers == s.answers + [Answer(id, tx.req, Success, tx.response)]
              && t.effects == s.effects + [Effect(id, tx.req, tx.started,
                                                  if tx.claimedAt == None then tx.started else tx.claimedAt.value,
                                                  tx.response)]
              && t.records == if !tx.holdsRecord then s.records
                              else s.records[Scope(tx.req.tenant, tx.req.actor, tx.req.write.endpoint, tx.req.key) :=
                                             Record(tx.req.write.hash, Some(tx.response))]
  {
  }
}
