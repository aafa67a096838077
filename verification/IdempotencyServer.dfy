// Idempotency-Key handling on the server: concurrent READ COMMITTED transactions over
// the claim table and the record table, each with its unique index, one step per
// statement.  A step that would wait for another transaction's row is not enabled.
module IdempotencyServer {
  import opened Prelude

  // ----- State -----

  /** What a write request asks for.  `hash` is the fingerprint of its payload; `recorded`
      marks endpoints that store and replay their response, `guarded` those behind
      idempotency_guard with a tenant at hand. */
  datatype Write = Write(endpoint: string, hash: string, recorded: bool, guarded: bool)

  datatype Request = Request(tenant: string, actor: string, key: string, write: Write)

  /** The columns of ux_platform_idempotency. */
  datatype ClaimKey = ClaimKey(tenant: string, key: string)

  /** The columns of ux_platform_idempotency_record. */
  datatype Scope = Scope(tenant: string, actor: string, endpoint: string, key: string)

  datatype Record = Record(hash: string, response: Option<string>)

  datatype Phase = Begun | Purged | Checked | Claimed | Selected | Ready | Done

  /** An open transaction with its uncommitted changes: claims it deleted, the claim it
      inserted and when, the record it inserted, and the response of its effect. */
  datatype Tx = Tx(req: Request, started: int, phase: Phase, purged: set<ClaimKey>, purgedAt: int,
                   claimedAt: Option<int>, holdsRecord: bool, response: string)

  /** A committed business effect: the transaction that did it, its start (created_at of
      its claim) and the moment its claim went in. */
  datatype Effect = Effect(id: nat, req: Request, started: int, claimedAt: int, response: string)

  datatype Code = Success | Unauthorized | Conflict | Mismatch | InProgress | Failed

  datatype Answer = Answer(id: nat, req: Request, code: Code, response: string)

  datatype Server = Server(
    now: int,
    claims: map<ClaimKey, int>,       // committed idempotency_keys rows: created_at
    records: map<Scope, Record>,      // committed idempotency_records rows
    txs: map<nat, Tx>,                // open transactions
    effects: seq<Effect>,             // history of committed effects
    answers: seq<Answer>)             // history of responses sent

  const START := Server(0, map[], map[], map[], [], [])

  function ClaimOf(r: Request): ClaimKey { ClaimKey(r.tenant, r.key) }

  function ScopeOf(r: Request): Scope { Scope(r.tenant, r.actor, r.write.endpoint, r.key) }

  /** A claim stamped at time c is stale for a purge at time t (KEY_RETENTION_DAYS <= 0: never). */
  predicate Stale(retention: int, c: int, t: int) {
    retention > 0 && c < t - retention
  }

  // ----- Steps -----

  datatype Step =
    | Tick(d: nat)
    | Begin(id: nat, req: Request)
    | Reject(id: nat, req: Request)          // 401 before any statement
    | Unguarded(id: nat)
    | Purge(id: nat)
    | CheckClaim(id: nat)
    | InsertClaim(id: nat)
    | Start(id: nat)
    | InsertRecord(id: nat)
    | Execute(id: nat, response: string)
    | Fail(id: nat)                          // the endpoint raises
    | Commit(id: nat)
    | Crash(id: nat)                         // rolled back, nobody is told

  function StaleClaims(retention: int, s: Server, t: string): set<ClaimKey> {
    set k | k in s.claims && k.tenant == t && Stale(retention, s.claims[k], s.now)
  }

  predicate At(s: Server, id: nat, p: Phase) {
    id in s.txs && s.txs[id].phase == p
  }

  /** Another transaction has inserted or deleted the claim k and not yet ended. */
  predicate ClaimLocked(s: Server, id: nat, k: ClaimKey) {
    exists o :: o in s.txs && o != id
      && ((s.txs[o].claimedAt.Some? && ClaimOf(s.txs[o].req) == k) || k in s.txs[o].purged)
  }

  predicate RecordLocked(s: Server, id: nat, c: Scope) {
    exists o :: o in s.txs && o != id && s.txs[o].holdsRecord && ScopeOf(s.txs[o].req) == c
  }

  predicate UsedId(s: Server, id: nat) {
    id in s.txs || (exists a :: a in s.answers && a.id == id) || (exists e :: e in s.effects && e.id == id)
  }

  predicate Enabled(retention: int, s: Server, a: Step) {
    match a
    case Tick(_) => true
    case Begin(id, _) => !UsedId(s, id)
    case Reject(id, _) => !UsedId(s, id)
    case Unguarded(id) => At(s, id, Begun) && !s.txs[id].req.write.guarded
    case Purge(id) =>
      At(s, id, Begun) && s.txs[id].req.write.guarded
      && forall k :: k in StaleClaims(retention, s, s.txs[id].req.tenant) ==> !ClaimLocked(s, id, k)
    case CheckClaim(id) => At(s, id, Purged)
    case InsertClaim(id) => At(s, id, Checked) && !ClaimLocked(s, id, ClaimOf(s.txs[id].req))
    case Start(id) => At(s, id, Claimed)
    case InsertRecord(id) => At(s, id, Selected) && !RecordLocked(s, id, ScopeOf(s.txs[id].req))
    case Execute(id, _) => At(s, id, Ready)
    case Fail(id) => At(s, id, Ready)
    case Commit(id) => At(s, id, Done)
    case Crash(id) => id in s.txs
  }

  function Update(s: Server, id: nat, t: Tx): Server {
    s.(txs := s.txs[id := t])
  }

  /** Roll back transaction id and answer its request. */
  function Abort(s: Server, id: nat, code: Code): Server
    requires id in s.txs
  {
    s.(txs := s.txs - {id}, answers := s.answers + [Answer(id, s.txs[id].req, code, "")])
  }

  /** The claim table once the deletions and the insertion of t are committed. */
  function ClaimsAfter(claims: map<ClaimKey, int>, t: Tx): map<ClaimKey, int> {
    if t.claimedAt.Some? then (claims - t.purged)[ClaimOf(t.req) := t.started] else claims - t.purged
  }

  /** The endpoint returns the stored response; its unit of work commits what it holds. */
  function Replay(s: Server, id: nat, response: string): Server
    requires id in s.txs
  {
    s.(txs := s.txs - {id}, claims := ClaimsAfter(s.claims, s.txs[id]),
       answers := s.answers + [Answer(id, s.txs[id].req, Success, response)])
  }

  /** An existing record answers the request: a different payload is refused, a stored
      response is replayed, and without one the request is still in progress. */
  function FromRecord(s: Server, id: nat): Server
    requires id in s.txs && ScopeOf(s.txs[id].req) in s.records
  {
    var r := s.records[ScopeOf(s.txs[id].req)];
    if r.hash != s.txs[id].req.write.hash then Abort(s, id, Mismatch)
    else if r.response.Some? then Replay(s, id, r.response.value)
    else Abort(s, id, InProgress)
  }

  function ClaimTime(t: Tx): int {
    if t.claimedAt.Some? then t.claimedAt.value else t.started
  }

  /** COMMIT: the claim, the record with its response, and the effect, all at once. */
  function Publish(s: Server, id: nat): Server
    requires id in s.txs
  {
    var t := s.txs[id];
    s.(txs := s.txs - {id},
       claims := ClaimsAfter(s.claims, t),
       records := if !t.holdsRecord then s.records
                  else s.records[ScopeOf(t.req) := Record(t.req.write.hash, Some(t.response))],
       effects := s.effects + [Effect(id, t.req, t.started, ClaimTime(t), t.response)],
       answers := s.answers + [Answer(id, t.req, Success, t.response)])
  }

  function Apply(retention: int, s: Server, a: Step): Server
    requires Enabled(retention, s, a)
  {
    match a
    case Tick(d) => s.(now := s.now + d)
    case Begin(id, req) => Update(s, id, Tx(req, s.now, Begun, {}, s.now, None, false, ""))
    case Reject(id, req) => s.(answers := s.answers + [Answer(id, req, Unauthorized, "")])
    case Unguarded(id) => Update(s, id, s.txs[id].(phase := Claimed))
    case Purge(id) =>
      var t := s.txs[id];
      Update(s, id, t.(phase := Purged, purged := StaleClaims(retention, s, t.req.tenant), purgedAt := s.now))
    case CheckClaim(id) =>
      var t := s.txs[id];
      if ClaimOf(t.req) in s.claims && ClaimOf(t.req) !in t.purged then Abort(s, id, Conflict)
      else Update(s, id, t.(phase := Checked))
    case InsertClaim(id) =>
      var t := s.txs[id];
      if ClaimOf(t.req) in s.claims && ClaimOf(t.req) !in t.purged then Abort(s, id, Failed)
      else Update(s, id, t.(phase := Claimed, claimedAt := Some(s.now)))
    case Start(id) =>
      var t := s.txs[id];
      if !t.req.write.recorded then Update(s, id, t.(phase := Ready))
      else if ScopeOf(t.req) in s.records then FromRecord(s, id)
      else Update(s, id, t.(phase := Selected))
    case InsertRecord(id) =>
      var t := s.txs[id];
      if ScopeOf(t.req) in s.records then
        // the insert violates the unique index: the whole transaction is rolled back, claim included
        FromRecord(Update(s, id, t.(purged := {}, claimedAt := None)), id)
      else Update(s, id, t.(phase := Ready, holdsRecord := true))
    case Execute(id, response) => Update(s, id, s.txs[id].(phase := Done, response := response))
    case Fail(id) => Abort(s, id, Failed)
    case Commit(id) => Publish(s, id)
    case Crash(id) => s.(txs := s.txs - {id})
  }

  /** Any interleaving: steps that are not enabled do nothing. */
  function Next(retention: int, s: Server, a: Step): Server {
    if Enabled(retention, s, a) then Apply(retention, s, a) else s
  }

  function Interleave(retention: int, s: Server, steps: seq<Step>): Server {
    if steps == [] then s else Next(retention, Interleave(retention, s, steps[..|steps| - 1]), steps[|steps| - 1])
  }

  // ----- Invariant of the claims -----

  predicate SameClaim(e: Effect, k: ClaimKey) {
    e.req.write.guarded && ClaimOf(e.req) == k
  }

  predicate HoldsClaim(t: Tx, k: ClaimKey) {
    t.claimedAt.Some? && ClaimOf(t.req) == k
  }

  /** The unique index at work: a claim is touched by one open transaction at a time. */
  ghost predicate Exclusive(txs: map<nat, Tx>) {
    && (forall i, j | i in txs && j in txs && i != j :: txs[i].purged !! txs[j].purged)
    && (forall i, j, k | i in txs && j in txs && i != j && HoldsClaim(txs[i], k) ::
        !HoldsClaim(txs[j], k) && k !in txs[j].purged)
  }

  /** What a transaction purged is still there for the others, unchanged and stale; the claim
      it inserted collides with no row but one it purged itself. */
  ghost predicate TxOk(retention: int, now: int, claims: map<ClaimKey, int>, t: Tx) {
    && t.purgedAt <= now && t.started <= now
    && (forall k :: k in t.purged ==> k in claims && Stale(retention, claims[k], t.purgedAt))
    && (forall k :: HoldsClaim(t, k) ==> k in claims ==> k in t.purged)
    && (t.claimedAt.Some? ==> t.purgedAt <= t.claimedAt.value <= now)
    && (t.phase in {Begun, Purged, Checked} ==> t.claimedAt.None?)
    && (t.req.write.guarded && t.phase in {Claimed, Selected, Ready, Done} ==> t.claimedAt.Some?)
    && (t.holdsRecord || t.phase == Selected ==> t.req.write.recorded)
    && (t.phase in {Ready, Done} && t.req.write.recorded ==> t.holdsRecord)
    && (t.holdsRecord ==> t.phase in {Ready, Done})
  }

  ghost predicate TxsOk(retention: int, now: int, claims: map<ClaimKey, int>, txs: map<nat, Tx>) {
    forall i :: i in txs ==> TxOk(retention, now, claims, txs[i])
  }

  /** A committed effect is still protected by its own claim row, or it has gone stale. */
  predicate Protected(retention: int, now: int, claims: map<ClaimKey, int>, e: Effect) {
    (ClaimOf(e.req) in claims && claims[ClaimOf(e.req)] == e.started) || Stale(retention, e.started, now)
  }

  ghost predicate EffectsOk(retention: int, now: int, claims: map<ClaimKey, int>, effects: seq<Effect>) {
    forall e :: e in effects && e.req.write.guarded ==> Protected(retention, now, claims, e)
  }

  /** Whoever holds a claim found every earlier effect of the key stale. */
  ghost predicate HoldersOk(retention: int, txs: map<nat, Tx>, effects: seq<Effect>) {
    forall i, e | i in txs && txs[i].claimedAt.Some? && e in effects && SameClaim(e, ClaimOf(txs[i].req)) ::
      Stale(retention, e.started, txs[i].claimedAt.value)
  }

  /** Two effects of one key are more than the retention apart. */
  ghost predicate Spaced(retention: int, effects: seq<Effect>) {
    forall i, j | 0 <= i < j < |effects| && effects[i].req.write.guarded
      && SameClaim(effects[j], ClaimOf(effects[i].req)) ::
      Stale(retention, effects[i].started, effects[j].claimedAt)
  }

  ghost predicate ClaimInv(retention: int, s: Server) {
    && Exclusive(s.txs)
    && TxsOk(retention, s.now, s.claims, s.txs)
    && EffectsOk(retention, s.now, s.claims, s.effects)
    && HoldersOk(retention, s.txs, s.effects)
    && Spaced(retention, s.effects)
  }

  // ----- Each step keeps the claims -----

  lemma TickClaims(retention: int, s: Server, d: nat)
    requires ClaimInv(retention, s)
    ensures ClaimInv(retention, s.(now := s.now + d))
  {
  }

  lemma TxOkOf(retention: int, s: Server, id: nat)
    requires ClaimInv(retention, s) && id in s.txs
    ensures TxOk(retention, s.now, s.claims, s.txs[id])
  {
    hide Exclusive, EffectsOk, HoldersOk, Spaced, TxOk;
  }

  /** The transaction t holds no claim that transaction id does not hold now. */
  predicate Narrows(txs: map<nat, Tx>, id: nat, t: Tx) {
    if id in txs then
      t.purged <= txs[id].purged && (t.claimedAt.Some? ==> txs[id].claimedAt == t.claimedAt && txs[id].req == t.req)
    else t.purged == {} && t.claimedAt.None?
  }

  lemma UpdateExclusive(txs: map<nat, Tx>, id: nat, t: Tx)
    requires Exclusive(txs) && Narrows(txs, id, t)
    ensures Exclusive(txs[id := t])
  {
  }

  lemma UpdateTxs(retention: int, now: int, claims: map<ClaimKey, int>, txs: map<nat, Tx>, id: nat, t: Tx)
    requires TxsOk(retention, now, claims, txs) && TxOk(retention, now, claims, t)
    ensures TxsOk(retention, now, claims, txs[id := t])
  {
    hide TxOk;
  }

  lemma UpdateHolders(retention: int, txs: map<nat, Tx>, effects: seq<Effect>, id: nat, t: Tx)
    requires HoldersOk(retention, txs, effects) && Narrows(txs, id, t)
    ensures HoldersOk(retention, txs[id := t], effects)
  {
    hide Stale, SameClaim;
  }

  /** A transaction that changes its own record only, keeping its claims. */
  lemma UpdateClaims(retention: int, s: Server, id: nat, t: Tx)
    requires ClaimInv(retention, s) && TxOk(retention, s.now, s.claims, t) && Narrows(s.txs, id, t)
    ensures ClaimInv(retention, Update(s, id, t))
  {
    hide Exclusive, TxsOk, EffectsOk, HoldersOk, Spaced, TxOk, Narrows;
    UpdateExclusive(s.txs, id, t);
    UpdateTxs(retention, s.now, s.claims, s.txs, id, t);
    UpdateHolders(retention, s.txs, s.effects, id, t);
  }

  lemma BeginClaims(retention: int, s: Server, id: nat, req: Request)
    requires ClaimInv(retention, s) && Enabled(retention, s, Begin(id, req))
    ensures ClaimInv(retention, Apply(retention, s, Begin(id, req)))
  {
    hide ClaimInv, Stale;
    UpdateClaims(retention, s, id, Tx(req, s.now, Begun, {}, s.now, None, false, ""));
  }

  lemma PurgeExclusive(s: Server, id: nat, t: Tx)
    requires Exclusive(s.txs) && id in s.txs && t.req == s.txs[id].req && t.claimedAt.None?
    requires forall k :: k in t.purged ==> !ClaimLocked(s, id, k)
    ensures Exclusive(s.txs[id := t])
  {
    forall o, k | o in s.txs && o != id && k in t.purged
      ensures !HoldsClaim(s.txs[o], k) && k !in s.txs[o].purged
    {
      assert !ClaimLocked(s, id, k);
    }
  }

  lemma PurgeHolders(retention: int, txs: map<nat, Tx>, effects: seq<Effect>, id: nat, t: Tx)
    requires HoldersOk(retention, txs, effects) && t.claimedAt.None?
    ensures HoldersOk(retention, txs[id := t], effects)
  {
    hide Stale, SameClaim;
  }

  lemma PurgeClaims(retention: int, s: Server, id: nat)
    requires ClaimInv(retention, s) && Enabled(retention, s, Purge(id))
    ensures ClaimInv(retention, Apply(retention, s, Purge(id)))
  {
    hide Exclusive, TxsOk, EffectsOk, HoldersOk, Spaced, Stale, ClaimLocked;
    var stale := StaleClaims(retention, s, s.txs[id].req.tenant);
    var t := s.txs[id].(phase := Purged, purged := stale, purgedAt := s.now);
    TxOkOf(retention, s, id);
    assert TxOk(retention, s.now, s.claims, t);
    PurgeExclusive(s, id, t);
    UpdateTxs(retention, s.now, s.claims, s.txs, id, t);
    PurgeHolders(retention, s.txs, s.effects, id, t);
  }

  /** A claim that collides with no row finds every earlier effect of its key stale. */
  lemma FreeClaimStale(retention: int, now: int, claims: map<ClaimKey, int>, effects: seq<Effect>, t: Tx)
    requires EffectsOk(retention, now, claims, effects) && TxOk(retention, now, claims, t) && t.purgedAt <= now
    requires ClaimOf(t.req) in claims ==> ClaimOf(t.req) in t.purged
    ensures forall e :: e in effects && SameClaim(e, ClaimOf(t.req)) ==> Stale(retention, e.started, now)
  {
    forall e | e in effects && SameClaim(e, ClaimOf(t.req))
      ensures Stale(retention, e.started, now)
    {
      assert Protected(retention, now, claims, e);
    }
  }

  lemma InsertExclusive(s: Server, id: nat, t: Tx)
    requires Exclusive(s.txs) && id in s.txs && t.req == s.txs[id].req && t.purged == s.txs[id].purged
    requires !ClaimLocked(s, id, ClaimOf(t.req))
    ensures Exclusive(s.txs[id := t])
  {
    forall o | o in s.txs && o != id
      ensures !HoldsClaim(s.txs[o], ClaimOf(t.req)) && ClaimOf(t.req) !in s.txs[o].purged
    {
    }
  }

  lemma InsertHolders(retention: int, txs: map<nat, Tx>, effects: seq<Effect>, id: nat, t: Tx)
    requires HoldersOk(retention, txs, effects) && t.claimedAt.Some?
    requires forall e :: e in effects && SameClaim(e, ClaimOf(t.req)) ==> Stale(retention, e.started, t.claimedAt.value)
    ensures HoldersOk(retention, txs[id := t], effects)
  {
    hide Stale, SameClaim;
  }

  /** Taking a claim: the unique index lets nobody else in, and every earlier effect of the
      key is stale, because its own row would have stopped the insert. */
  lemma TakeClaims(retention: int, s: Server, id: nat)
    requires ClaimInv(retention, s) && At(s, id, Checked) && !ClaimLocked(s, id, ClaimOf(s.txs[id].req))
    requires ClaimOf(s.txs[id].req) in s.claims ==> ClaimOf(s.txs[id].req) in s.txs[id].purged
    ensures ClaimInv(retention, Update(s, id, s.txs[id].(phase := Claimed, claimedAt := Some(s.now))))
  {
    hide Exclusive, TxsOk, EffectsOk, HoldersOk, Spaced, Stale, ClaimLocked;
    var t := s.txs[id].(phase := Claimed, claimedAt := Some(s.now));
    TxOkOf(retention, s, id);
    FreeClaimStale(retention, s.now, s.claims, s.effects, s.txs[id]);
    assert TxOk(retention, s.now, s.claims, t);
    InsertExclusive(s, id, t);
    UpdateTxs(retention, s.now, s.claims, s.txs, id, t);
    InsertHolders(retention, s.txs, s.effects, id, t);
  }

  lemma RemoveClaims(retention: int, s: Server, id: nat)
    requires ClaimInv(retention, s)
    ensures ClaimInv(retention, s.(txs := s.txs - {id}))
  {
  }

  lemma OthersAfterPublish(retention: int, s: Server, id: nat, o: nat)
    requires ClaimInv(retention, s) && id in s.txs && o in s.txs && o != id
    ensures TxOk(retention, s.now, ClaimsAfter(s.claims, s.txs[id]), s.txs[o])
  {
    hide EffectsOk, HoldersOk, Spaced, Stale;
    var t, u := s.txs[id], s.txs[o];
    assert TxOk(retention, s.now, s.claims, u);
    assert u.purged !! t.purged;
    if t.claimedAt.Some? {
      assert HoldsClaim(t, ClaimOf(t.req));
    }
  }

  lemma ProtectedAfterPublish(retention: int, s: Server, id: nat, e: Effect)
    requires ClaimInv(retention, s) && id in s.txs && e in s.effects && e.req.write.guarded
    ensures Protected(retention, s.now, ClaimsAfter(s.claims, s.txs[id]), e)
  {
    var t := s.txs[id];
    assert Protected(retention, s.now, s.claims, e);
    assert TxOk(retention, s.now, s.claims, t);
    if t.claimedAt.Some? && ClaimOf(t.req) == ClaimOf(e.req) {
      assert SameClaim(e, ClaimOf(t.req));
    }
  }

  /** Committing the claims of a transaction, without an effect of its own. */
  lemma PublishClaims(retention: int, s: Server, id: nat)
    requires ClaimInv(retention, s) && id in s.txs
    ensures ClaimInv(retention, s.(txs := s.txs - {id}, claims := ClaimsAfter(s.claims, s.txs[id])))
  {
    forall o | o in s.txs && o != id ensures TxOk(retention, s.now, ClaimsAfter(s.claims, s.txs[id]), s.txs[o]) {
      OthersAfterPublish(retention, s, id, o);
    }
    forall e | e in s.effects && e.req.write.guarded
      ensures Protected(retention, s.now, ClaimsAfter(s.claims, s.txs[id]), e)
    {
      ProtectedAfterPublish(retention, s, id, e);
    }
  }

  /** Committing an effect: nobody else holds its key, and all earlier effects are stale. */
  lemma CommitClaims(retention: int, s: Server, id: nat)
    requires ClaimInv(retention, s) && Enabled(retention, s, Commit(id))
    ensures ClaimInv(retention, Publish(s, id))
  {
    var t, after := s.txs[id], Publish(s, id);
    var last := after.effects[|s.effects|];
    PublishClaims(retention, s, id);
    assert TxOk(retention, s.now, s.claims, t);
    assert t.req.write.guarded ==> HoldsClaim(t, ClaimOf(t.req));
    assert after.effects == s.effects + [last];
    assert EffectsOk(retention, after.now, after.claims, after.effects) by {
      assert last.req.write.guarded ==> Protected(retention, after.now, after.claims, last);
    }
    assert HoldersOk(retention, after.txs, after.effects) by {
      HoldersAfterCommit(retention, s, id);
    }
    assert Spaced(retention, after.effects) by {
      SpacedAfterCommit(retention, s, id);
    }
  }

  lemma HoldersAfterCommit(retention: int, s: Server, id: nat)
    requires ClaimInv(retention, s) && Enabled(retention, s, Commit(id))
    ensures HoldersOk(retention, Publish(s, id).txs, Publish(s, id).effects)
  {
    hide EffectsOk, Spaced, Stale;
    var t, after := s.txs[id], Publish(s, id);
    assert TxOk(retention, s.now, s.claims, t);
    assert t.req.write.guarded ==> HoldsClaim(t, ClaimOf(t.req));
    assert t.req.write.guarded ==> forall i :: i in s.txs && i != id ==> !HoldsClaim(s.txs[i], ClaimOf(t.req));
    forall i, e | i in after.txs && after.txs[i].claimedAt.Some? && e in after.effects
      && SameClaim(e, ClaimOf(after.txs[i].req))
      ensures Stale(retention, e.started, after.txs[i].claimedAt.value)
    {
    }
  }

  lemma SpacedAfterCommit(retention: int, s: Server, id: nat)
    requires ClaimInv(retention, s) && Enabled(retention, s, Commit(id))
    ensures Spaced(retention, Publish(s, id).effects)
  {
    hide EffectsOk, Exclusive, Stale;
    var t, after := s.txs[id], Publish(s, id);
    assert TxOk(retention, s.now, s.claims, t);
    forall i, j | 0 <= i < j < |after.effects| && after.effects[i].req.write.guarded
                  && SameClaim(after.effects[j], ClaimOf(after.effects[i].req))
      ensures Stale(retention, after.effects[i].started, after.effects[j].claimedAt)
    {
      if j == |s.effects| {
        assert after.effects[i] in s.effects && SameClaim(after.effects[i], ClaimOf(t.req));
      }
    }
  }

  lemma FromRecordClaims(retention: int, s: Server, id: nat)
    requires ClaimInv(retention, s) && id in s.txs && ScopeOf(s.txs[id].req) in s.records
    ensures ClaimInv(retention, FromRecord(s, id))
  {
    hide Exclusive, TxsOk, EffectsOk, HoldersOk, Spaced, ClaimsAfter;
    RemoveClaims(retention, s, id);
    PublishClaims(retention, s, id);
  }

  lemma NextClaims(retention: int, s: Server, a: Step)
    requires ClaimInv(retention, s)
    ensures ClaimInv(retention, Next(retention, s, a))
  {
    if Enabled(retention, s, a) {
      hide ClaimInv, Apply, Enabled;
      match a
      case Tick(d) => TickStepClaims(retention, s, d);
      case Begin(id, req) => BeginClaims(retention, s, id, req);
      case Reject(id, req) => RejectClaims(retention, s, id, req);
      case Unguarded(id) => UnguardedClaims(retention, s, id);
      case Purge(id) => PurgeClaims(retention, s, id);
      case CheckClaim(id) => CheckClaimClaims(retention, s, id);
      case InsertClaim(id) => InsertClaimClaims(retention, s, id);
      case Start(id) => StartClaims(retention, s, id);
      case InsertRecord(id) => InsertRecordClaims(retention, s, id);
      case Execute(id, response) => ExecuteClaims(retention, s, id, response);
      case Fail(id) => FailClaims(retention, s, id);
      case Commit(id) => CommitStepClaims(retention, s, id);
      case Crash(id) => CrashClaims(retention, s, id);
    }
  }

  lemma TickStepClaims(retention: int, s: Server, d: nat)
    requires ClaimInv(retention, s)
    ensures ClaimInv(retention, Apply(retention, s, Tick(d)))
  {
    hide ClaimInv;
    TickClaims(retention, s, d);
  }

  lemma RejectClaims(retention: int, s: Server, id: nat, req: Request)
    requires ClaimInv(retention, s) && Enabled(retention, s, Reject(id, req))
    ensures ClaimInv(retention, Apply(retention, s, Reject(id, req)))
  {
    hide Exclusive, TxsOk, EffectsOk, HoldersOk, Spaced;
  }

  lemma UnguardedClaims(retention: int, s: Server, id: nat)
    requires ClaimInv(retention, s) && Enabled(retention, s, Unguarded(id))
    ensures ClaimInv(retention, Apply(retention, s, Unguarded(id)))
  {
    hide ClaimInv, Stale;
    TxOkOf(retention, s, id);
    UpdateClaims(retention, s, id, s.txs[id].(phase := Claimed));
  }

  lemma CheckClaimClaims(retention: int, s: Server, id: nat)
    requires ClaimInv(retention, s) && Enabled(retention, s, CheckClaim(id))
    ensures ClaimInv(retention, Apply(retention, s, CheckClaim(id)))
  {
    hide ClaimInv, Stale;
    TxOkOf(retention, s, id);
    AbortClaims(retention, s, id, Conflict);
    UpdateClaims(retention, s, id, s.txs[id].(phase := Checked));
  }

  lemma InsertClaimClaims(retention: int, s: Server, id: nat)
    requires ClaimInv(retention, s) && Enabled(retention, s, InsertClaim(id))
    ensures ClaimInv(retention, Apply(retention, s, InsertClaim(id)))
  {
    hide ClaimInv, ClaimLocked;
    if ClaimOf(s.txs[id].req) in s.claims && ClaimOf(s.txs[id].req) !in s.txs[id].purged {
      AbortClaims(retention, s, id, Failed);
    } else {
      TakeClaims(retention, s, id);
    }
  }

  lemma StartClaims(retention: int, s: Server, id: nat)
    requires ClaimInv(retention, s) && Enabled(retention, s, Start(id))
    ensures ClaimInv(retention, Apply(retention, s, Start(id)))
  {
    hide ClaimInv, Stale, FromRecord;
    TxOkOf(retention, s, id);
    var t := s.txs[id];
    if !t.req.write.recorded {
      UpdateClaims(retention, s, id, t.(phase := Ready));
    } else if ScopeOf(t.req) in s.records {
      FromRecordClaims(retention, s, id);
    } else {
      UpdateClaims(retention, s, id, t.(phase := Selected));
    }
  }

  lemma InsertRecordClaims(retention: int, s: Server, id: nat)
    requires ClaimInv(retention, s) && Enabled(retention, s, InsertRecord(id))
    ensures ClaimInv(retention, Apply(retention, s, InsertRecord(id)))
  {
    hide ClaimInv, Stale, RecordLocked, FromRecord;
    TxOkOf(retention, s, id);
    if ScopeOf(s.txs[id].req) in s.records {
      RolledBackClaims(retention, s, id);
    } else {
      UpdateClaims(retention, s, id, s.txs[id].(phase := Ready, holdsRecord := true));
    }
  }

  lemma ExecuteClaims(retention: int, s: Server, id: nat, response: string)
    requires ClaimInv(retention, s) && Enabled(retention, s, Execute(id, response))
    ensures ClaimInv(retention, Apply(retention, s, Execute(id, response)))
  {
    hide ClaimInv, Stale;
    TxOkOf(retention, s, id);
    UpdateClaims(retention, s, id, s.txs[id].(phase := Done, response := response));
  }

  lemma FailClaims(retention: int, s: Server, id: nat)
    requires ClaimInv(retention, s) && Enabled(retention, s, Fail(id))
    ensures ClaimInv(retention, Apply(retention, s, Fail(id)))
  {
    hide ClaimInv;
    AbortClaims(retention, s, id, Failed);
  }

  lemma CommitStepClaims(retention: int, s: Server, id: nat)
    requires ClaimInv(retention, s) && Enabled(retention, s, Commit(id))
    ensures ClaimInv(retention, Apply(retention, s, Commit(id)))
  {
    hide ClaimInv, Publish;
    CommitClaims(retention, s, id);
  }

  lemma CrashClaims(retention: int, s: Server, id: nat)
    requires ClaimInv(retention, s) && Enabled(retention, s, Crash(id))
    ensures ClaimInv(retention, Apply(retention, s, Crash(id)))
  {
    hide ClaimInv;
    RemoveClaims(retention, s, id);
  }

  /** A transaction that ends with nothing but an answer. */
  lemma AbortClaims(retention: int, s: Server, id: nat, code: Code)
    requires ClaimInv(retention, s) && id in s.txs
    ensures ClaimInv(retention, Abort(s, id, code))
  {
    hide Exclusive, TxsOk, EffectsOk, HoldersOk, Spaced;
    RemoveClaims(retention, s, id);
  }

  /** A record conflict rolls the claim back and answers from the record, committing nothing. */
  lemma RolledBackClaims(retention: int, s: Server, id: nat)
    requires ClaimInv(retention, s) && id in s.txs && ScopeOf(s.txs[id].req) in s.records
    ensures var rolled := Update(s, id, s.txs[id].(purged := {}, claimedAt := None));
            ClaimInv(retention, FromRecord(rolled, id)) && FromRecord(rolled, id).claims == s.claims
  {
    hide Exclusive, TxsOk, EffectsOk, HoldersOk, Spaced;
    var rolled := Update(s, id, s.txs[id].(purged := {}, claimedAt := None));
    assert rolled.txs - {id} == s.txs - {id};
    assert ClaimsAfter(s.claims, rolled.txs[id]) == s.claims;
    RemoveClaims(retention, s, id);
  }

  // ----- Invariant of the records -----

  /** No record row is seen without its response, an uncommitted record excludes its
      scope, and each recorded effect has its record. */
  ghost predicate RecordsComplete(records: map<Scope, Record>) {
    forall c :: c in records ==> records[c].response.Some?
  }

  ghost predicate RecordHolders(records: map<Scope, Record>, txs: map<nat, Tx>) {
    && (forall i :: i in txs && txs[i].holdsRecord ==> ScopeOf(txs[i].req) !in records)
    && (forall i, j | i in txs && j in txs && i != j && txs[i].holdsRecord && txs[j].holdsRecord ::
          ScopeOf(txs[i].req) != ScopeOf(txs[j].req))
  }

  predicate EffectRecorded(records: map<Scope, Record>, e: Effect) {
    ScopeOf(e.req) in records && records[ScopeOf(e.req)] == Record(e.req.write.hash, Some(e.response))
  }

  ghost predicate EffectsRecorded(records: map<Scope, Record>, effects: seq<Effect>) {
    && (forall e :: e in effects && e.req.write.recorded ==> EffectRecorded(records, e))
    && (forall i, j | 0 <= i < j < |effects| && effects[i].req.write.recorded && effects[j].req.write.recorded ::
          ScopeOf(effects[i].req) != ScopeOf(effects[j].req))
  }

  /** The effect that a success answer stands for. */
  predicate Stands(e: Effect, a: Answer) {
    && ClaimOf(e.req) == ClaimOf(a.req) && e.response == a.response
    && if a.req.write.recorded then e.req.write.recorded && ScopeOf(e.req) == ScopeOf(a.req)
       && e.req.write.hash == a.req.write.hash
       else e.id == a.id && e.req == a.req
  }

  ghost predicate AnswerBacked(effects: seq<Effect>, a: Answer) {
    a.code == Success ==> exists e :: e in effects && Stands(e, a)
  }

  ghost predicate RecordsBacked(records: map<Scope, Record>, effects: seq<Effect>) {
    forall c :: c in records ==>
      exists e :: e in effects && e.req.write.recorded && ScopeOf(e.req) == c && EffectRecorded(records, e)
  }

  ghost predicate AnswersBacked(effects: seq<Effect>, answers: seq<Answer>) {
    forall a :: a in answers ==> AnswerBacked(effects, a)
  }

  ghost predicate RecordInv(s: Server) {
    && RecordsComplete(s.records)
    && RecordHolders(s.records, s.txs)
    && EffectsRecorded(s.records, s.effects)
    && RecordsBacked(s.records, s.effects)
    && AnswersBacked(s.effects, s.answers)
  }

  lemma FromRecordRecords(s: Server, id: nat)
    requires RecordInv(s) && id in s.txs && s.txs[id].req.write.recorded && ScopeOf(s.txs[id].req) in s.records
    ensures RecordInv(FromRecord(s, id))
  {
    var r, c := s.txs[id].req, ScopeOf(s.txs[id].req);
    if s.records[c].hash == r.write.hash && s.records[c].response.Some? {
      var e :| e in s.effects && e.req.write.recorded && ScopeOf(e.req) == c && EffectRecorded(s.records, e);
      assert Stands(e, Answer(id, r, Success, s.records[c].response.value));
    }
  }

  lemma CommitRecords(s: Server, id: nat)
    requires RecordInv(s) && id in s.txs
    requires s.txs[id].holdsRecord <==> s.txs[id].req.write.recorded
    ensures RecordInv(Publish(s, id))
  {
    var t, after := s.txs[id], Publish(s, id);
    var last := after.effects[|s.effects|];
    assert after.effects == s.effects + [last];
    assert Stands(last, after.answers[|s.answers|]);
    assert EffectsRecorded(after.records, after.effects) by { CommitEffectsRecorded(s, id); }
    assert RecordsBacked(after.records, after.effects) by { CommitRecordsBacked(s, id); }
    assert AnswersBacked(after.effects, after.answers) by {
      forall a | a in after.answers ensures AnswerBacked(after.effects, a) {
        if a in s.answers {
          assert AnswerBacked(s.effects, a);
        } else {
          assert last in after.effects;
        }
      }
    }
  }

  lemma CommitEffectsRecorded(s: Server, id: nat)
    requires RecordHolders(s.records, s.txs) && EffectsRecorded(s.records, s.effects) && id in s.txs
    requires s.txs[id].holdsRecord <==> s.txs[id].req.write.recorded
    ensures EffectsRecorded(Publish(s, id).records, Publish(s, id).effects)
  {
    var t, after := s.txs[id], Publish(s, id);
    forall e | e in s.effects && e.req.write.recorded
      ensures EffectRecorded(after.records, e)
      ensures t.holdsRecord ==> ScopeOf(e.req) != ScopeOf(t.req)
    {
      assert EffectRecorded(s.records, e);
    }
    forall i, j | 0 <= i < j < |after.effects| && after.effects[i].req.write.recorded
      && after.effects[j].req.write.recorded
      ensures ScopeOf(after.effects[i].req) != ScopeOf(after.effects[j].req)
    {
      assert after.effects[i] in s.effects;
    }
  }

  lemma CommitRecordsBacked(s: Server, id: nat)
    requires RecordHolders(s.records, s.txs) && RecordsBacked(s.records, s.effects) && id in s.txs
    requires s.txs[id].holdsRecord <==> s.txs[id].req.write.recorded
    ensures RecordsBacked(Publish(s, id).records, Publish(s, id).effects)
  {
    var t, after := s.txs[id], Publish(s, id);
    var last := after.effects[|s.effects|];
    forall c | c in after.records
      ensures exists e ::
                e in after.effects && e.req.write.recorded && ScopeOf(e.req) == c && EffectRecorded(after.records, e)
    {
      if t.holdsRecord && c == ScopeOf(t.req) {
        assert last in after.effects && EffectRecorded(after.records, last);
      } else {
        var e :| e in s.effects && e.req.write.recorded && ScopeOf(e.req) == c && EffectRecorded(s.records, e);
        assert e in after.effects && EffectRecorded(after.records, e);
      }
    }
  }

  lemma UpdateRecords(s: Server, id: nat, t: Tx)
    requires RecordInv(s)
    requires t.holdsRecord ==> ScopeOf(t.req) !in s.records && !RecordLocked(s, id, ScopeOf(t.req))
    ensures RecordInv(Update(s, id, t))
  {
  }

  lemma DropRecords(s: Server, id: nat, more: seq<Answer>)
    requires RecordInv(s) && forall a :: a in more ==> a.code != Success
    ensures RecordInv(s.(txs := s.txs - {id}, answers := s.answers + more))
  {
  }

  lemma HeldScopeFree(s: Server, id: nat)
    requires RecordHolders(s.records, s.txs) && id in s.txs && s.txs[id].holdsRecord
    ensures ScopeOf(s.txs[id].req) !in s.records && !RecordLocked(s, id, ScopeOf(s.txs[id].req))
  {
  }

  /** A transaction's record is its own until it ends. */
  lemma HeldByOne(retention: int, s: Server, id: nat)
    requires ClaimInv(retention, s) && RecordInv(s) && id in s.txs
    ensures TxOk(retention, s.now, s.claims, s.txs[id])
    ensures s.txs[id].holdsRecord ==>
              ScopeOf(s.txs[id].req) !in s.records && !RecordLocked(s, id, ScopeOf(s.txs[id].req))
  {
    hide ClaimInv, RecordsComplete, RecordHolders, EffectsRecorded, RecordsBacked, AnswersBacked, RecordLocked, TxOk;
    TxOkOf(retention, s, id);
    if s.txs[id].holdsRecord { HeldScopeFree(s, id); }
  }

  lemma NextRecords(retention: int, s: Server, a: Step)
    requires ClaimInv(retention, s) && RecordInv(s)
    ensures RecordInv(Next(retention, s, a))
  {
    if Enabled(retention, s, a) {
      hide ClaimInv, RecordInv, Apply;
      match a
      case Tick(d) => TickRecords(retention, s, d);
      case Begin(id, req) => BeginRecords(retention, s, id, req);
      case Reject(id, req) => RejectStepRecords(retention, s, id, req);
      case Commit(id) => CommitStepRecords(retention, s, id);
      case Crash(id) => CrashRecords(retention, s, id);
      case Start(id) => HeldByOne(retention, s, id); StartRecords(retention, s, id);
      case InsertRecord(id) => InsertRecordRecords(retention, s, id);
      case Unguarded(id) => OwnRecords(retention, s, a, id);
      case Purge(id) => OwnRecords(retention, s, a, id);
      case CheckClaim(id) => OwnRecords(retention, s, a, id);
      case InsertClaim(id) => OwnRecords(retention, s, a, id);
      case Execute(id, _) => OwnRecords(retention, s, a, id);
      case Fail(id) => OwnRecords(retention, s, a, id);
    }
  }

  lemma TickRecords(retention: int, s: Server, d: nat)
    requires RecordInv(s)
    ensures RecordInv(Apply(retention, s, Tick(d)))
  {
    hide RecordsComplete, RecordHolders, EffectsRecorded, RecordsBacked, AnswersBacked;
  }

  lemma BeginRecords(retention: int, s: Server, id: nat, req: Request)
    requires RecordInv(s) && Enabled(retention, s, Begin(id, req))
    ensures RecordInv(Apply(retention, s, Begin(id, req)))
  {
    hide RecordInv, UsedId;
    UpdateRecords(s, id, Tx(req, s.now, Begun, {}, s.now, None, false, ""));
  }

  lemma RejectStepRecords(retention: int, s: Server, id: nat, req: Request)
    requires RecordInv(s) && Enabled(retention, s, Reject(id, req))
    ensures RecordInv(Apply(retention, s, Reject(id, req)))
  {
    hide RecordInv, UsedId;
    RejectRecords(s, Answer(id, req, Unauthorized, ""));
  }

  lemma CommitStepRecords(retention: int, s: Server, id: nat)
    requires ClaimInv(retention, s) && RecordInv(s) && Enabled(retention, s, Commit(id))
    ensures RecordInv(Apply(retention, s, Commit(id)))
  {
    hide ClaimInv, RecordInv, Publish, Stale;
    TxOkOf(retention, s, id);
    CommitRecords(s, id);
  }

  lemma CrashRecords(retention: int, s: Server, id: nat)
    requires RecordInv(s) && Enabled(retention, s, Crash(id))
    ensures RecordInv(Apply(retention, s, Crash(id)))
  {
    hide RecordInv;
    DropRecords(s, id, []);
    assert s.answers + [] == s.answers;
  }

  lemma InsertRecordRecords(retention: int, s: Server, id: nat)
    requires ClaimInv(retention, s) && RecordInv(s) && Enabled(retention, s, InsertRecord(id))
    ensures RecordInv(Apply(retention, s, InsertRecord(id)))
  {
    hide ClaimInv, RecordInv, RecordLocked, FromRecord, Stale;
    HeldByOne(retention, s, id);
    var t := s.txs[id];
    if ScopeOf(t.req) in s.records {
      var rolled := t.(purged := {}, claimedAt := None);
      UpdateRecords(s, id, rolled);
      FromRecordRecords(Update(s, id, rolled), id);
    } else {
      UpdateRecords(s, id, t.(phase := Ready, holdsRecord := true));
    }
  }

  /** The remaining steps of transaction id go on with the record it has or end without success. */
  predicate OwnStep(a: Step, id: nat) {
    (a.Unguarded? || a.Purge? || a.CheckClaim? || a.InsertClaim? || a.Execute? || a.Fail?) && a.id == id
  }

  ghost predicate KeepsRecord(s: Server, id: nat, after: Server) {
    id in s.txs &&
    if id in after.txs
    then after == Update(s, id, after.txs[id]) && after.txs[id].req == s.txs[id].req
         && after.txs[id].holdsRecord == s.txs[id].holdsRecord
    else exists code :: code != Success && after == Abort(s, id, code)
  }

  lemma OwnRecords(retention: int, s: Server, a: Step, id: nat)
    requires ClaimInv(retention, s) && RecordInv(s) && Enabled(retention, s, a) && OwnStep(a, id)
    ensures RecordInv(Apply(retention, s, a))
  {
    OwnKeepsRecord(retention, s, a, id);
    hide ClaimInv, RecordInv, Apply, Enabled, RecordLocked;
    HeldByOne(retention, s, id);
    KeepRecords(s, id, Apply(retention, s, a));
  }

  lemma OwnKeepsRecord(retention: int, s: Server, a: Step, id: nat)
    requires Enabled(retention, s, a) && OwnStep(a, id)
    ensures KeepsRecord(s, id, Apply(retention, s, a))
  {
    hide ClaimLocked, RecordLocked, StaleClaims, ClaimOf;
  }

  /** A step that changes only its own transaction, or ends it without success. */
  lemma KeepRecords(s: Server, id: nat, after: Server)
    requires RecordInv(s) && id in s.txs
    requires s.txs[id].holdsRecord ==>
               ScopeOf(s.txs[id].req) !in s.records && !RecordLocked(s, id, ScopeOf(s.txs[id].req))
    requires KeepsRecord(s, id, after)
    ensures RecordInv(after)
  {
    hide RecordInv, RecordLocked;
    if id in after.txs {
      UpdateRecords(s, id, after.txs[id]);
    } else {
      var code :| code != Success && after == Abort(s, id, code);
      DropRecords(s, id, [Answer(id, s.txs[id].req, code, "")]);
    }
  }

  lemma RejectRecords(s: Server, a: Answer)
    requires RecordInv(s) && a.code != Success
    ensures RecordInv(s.(answers := s.answers + [a]))
  {
  }

  lemma StartRecords(retention: int, s: Server, id: nat)
    requires RecordInv(s) && Enabled(retention, s, Start(id))
    requires s.txs[id].holdsRecord ==>
               ScopeOf(s.txs[id].req) !in s.records && !RecordLocked(s, id, ScopeOf(s.txs[id].req))
    ensures RecordInv(Apply(retention, s, Start(id)))
  {
    hide RecordsComplete, RecordHolders, EffectsRecorded, RecordsBacked, AnswersBacked, ClaimsAfter, RecordLocked;
    var t := s.txs[id];
    if !t.req.write.recorded {
      UpdateRecords(s, id, t.(phase := Ready));
    } else if ScopeOf(t.req) in s.records {
      FromRecordRecords(s, id);
    } else {
      UpdateRecords(s, id, t.(phase := Selected));
    }
  }

  lemma {:induction false} RunServer(retention: int, steps: seq<Step>)
    ensures var s := Interleave(retention, START, steps); ClaimInv(retention, s) && RecordInv(s)
  {
    hide ClaimInv, RecordInv;
    if steps == [] {
      StartOk(retention);
    } else {
      var before := Interleave(retention, START, steps[..|steps| - 1]);
      RunServer(retention, steps[..|steps| - 1]);
      NextClaims(retention, before, steps[|steps| - 1]);
      NextRecords(retention, before, steps[|steps| - 1]);
    }
  }

  lemma StartOk(retention: int)
    ensures ClaimInv(retention, START) && RecordInv(START)
  {
  }

  /** Stored responses: in every interleaving a record holds its response, a scope is
      executed at most once, for good, and whoever is answered success under it carried the
      recorded payload and got the recorded response. */
  lemma RecordedOnce(retention: int, steps: seq<Step>)
    ensures var s := Interleave(retention, START, steps);
            && (forall c :: c in s.records ==> s.records[c].response.Some?)
            && (forall i, j | 0 <= i < j < |s.effects| && s.effects[i].req.write.recorded
                && s.effects[j].req.write.recorded ::
                  ScopeOf(s.effects[i].req) != ScopeOf(s.effects[j].req))
            && (forall a | a in s.answers && a.code == Success && a.req.write.recorded ::
                  ScopeOf(a.req) in s.records
                    && s.records[ScopeOf(a.req)] == Record(a.req.write.hash, Some(a.response)))
  {
    RunServer(retention, steps);
    hide ClaimInv;
    var s := Interleave(retention, START, steps);
    forall a | a in s.answers && a.code == Success && a.req.write.recorded
      ensures ScopeOf(a.req) in s.records && s.records[ScopeOf(a.req)] == Record(a.req.write.hash, Some(a.response))
    {
      assert AnswerBacked(s.effects, a);
      var e :| e in s.effects && Stands(e, a);
      assert EffectRecorded(s.records, e);
    }
  }

  /** Every success answer stands for a committed effect of its key. */
  lemma SuccessHasEffect(retention: int, steps: seq<Step>, a: Answer)
    requires a in Interleave(retention, START, steps).answers && a.code == Success
    ensures exists e :: e in Interleave(retention, START, steps).effects && Stands(e, a)
  {
    RunServer(retention, steps);
    hide ClaimInv;
    assert AnswerBacked(Interleave(retention, START, steps).effects, a);
  }

  /** In every interleaving, two committed effects of one (tenant, key) are more than the
      retention apart: the earlier started so long before the later took its claim. */
  lemma OneEffectPerRetention(retention: int, steps: seq<Step>, i: nat, j: nat)
    requires var effects := Interleave(retention, START, steps).effects;
             && i < j < |effects| && effects[i].req.write.guarded && effects[j].req.write.guarded
             && effects[i].req.tenant == effects[j].req.tenant && effects[i].req.key == effects[j].req.key
    ensures var effects := Interleave(retention, START, steps).effects;
            retention > 0 && effects[i].started + retention < effects[j].claimedAt
  {
    RunServer(retention, steps);
    var effects := Interleave(retention, START, steps).effects;
    assert SameClaim(effects[j], ClaimOf(effects[i].req));
  }

  // ----- What a retry can hope for -----

  lemma NextGrows(retention: int, s: Server, a: Step)
    ensures var after := Next(retention, s, a);
            && s.now <= after.now && s.effects <= after.effects && s.answers <= after.answers
            && |after.answers| <= |s.answers| + 1
  {
  }

  /** A guarded request is answered success only once all earlier effects of its key have
      outlived the retention. */
  lemma SuccessNeedsStale(retention: int, s: Server, a: Step, e: Effect)
    requires ClaimInv(retention, s) && e in s.effects
    requires var after := Next(retention, s, a);
             && |after.answers| > |s.answers|
             && after.answers[|s.answers|].code == Success && after.answers[|s.answers|].req.write.guarded
             && SameClaim(e, ClaimOf(after.answers[|s.answers|].req))
    ensures Stale(retention, e.started, s.now)
  {
    SuccessIsClaimed(retention, s, a);
    hide Next, Exclusive, EffectsOk, Spaced, TxsOk, Stale;
    TxOkOf(retention, s, a.id);
    assert SameClaim(e, ClaimOf(s.txs[a.id].req));
  }

  /** Only a transaction past its claim answers success, for its own request. */
  lemma SuccessIsClaimed(retention: int, s: Server, a: Step)
    requires |Next(retention, s, a).answers| > |s.answers|
    requires Next(retention, s, a).answers[|s.answers|].code == Success
    ensures !a.Tick? && a.id in s.txs && s.txs[a.id].phase in {Claimed, Selected, Ready, Done}
    ensures Next(retention, s, a).answers[|s.answers|].req == s.txs[a.id].req
  {
    hide ClaimLocked, RecordLocked, StaleClaims, ClaimsAfter, UsedId, ClaimOf, ScopeOf;
  }

  /** After an effect has committed, no retry of its key is answered success within the
      retention, whatever happens: the claim turns every one of them away. */
  lemma {:induction false} NoSecondSuccess(retention: int, s: Server, steps: seq<Step>, e: Effect)
    requires ClaimInv(retention, s) && e in s.effects && e.req.write.guarded
    requires !Stale(retention, e.started, Interleave(retention, s, steps).now)
    ensures var after := Interleave(retention, s, steps);
            && ClaimInv(retention, after) && s.effects <= after.effects && s.answers <= after.answers
            && forall a :: a in after.answers[|s.answers|..] && a.code == Success && a.req.write.guarded
                 ==> ClaimOf(a.req) != ClaimOf(e.req)
  {
    hide ClaimInv, Next;
    if steps != [] {
      var n := |steps| - 1;
      var mid, after := Interleave(retention, s, steps[..n]), Interleave(retention, s, steps);
      NextGrows(retention, mid, steps[n]);
      NoSecondSuccess(retention, s, steps[..n], e);
      NextClaims(retention, mid, steps[n]);
      forall a | a in after.answers[|s.answers|..] && a.code == Success && a.req.write.guarded
        ensures ClaimOf(a.req) != ClaimOf(e.req)
      {
        if a !in mid.answers[|s.answers|..] {
          assert after.answers == mid.answers + [after.answers[|mid.answers|]];
          if ClaimOf(a.req) == ClaimOf(e.req) {
            assert SameClaim(e, ClaimOf(a.req));
            SuccessNeedsStale(retention, mid, steps[n], e);
            assert false;
          }
        }
      }
    }
  }
}
