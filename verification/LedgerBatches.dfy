// The life of a posting batch over whole runs: status, payload, version counter,
// and the journal it ends in.
module LedgerBatches {
  import opened Prelude
  import opened Ledger
  import opened LedgerInvariant
  import opened LedgerRuns
  import opened LedgerHistory
  import opened LedgerDocuments

  function Rank(s: BatchStatus): nat {
    match s case Draft => 0 case Validated => 1 case Posted => 2
  }

  function PostedOnce(s: BatchStatus): nat {
    if s == Posted then 1 else 0
  }

  /** 1 when request c runs a validation of batch b that commits: a validate call, or a
      post, on a batch that was not posted. */
  ghost function Validates(guarded: bool, db: Db, c: Command, b: Id): nat {
    if b in db.batches && db.batches[b].status != Posted
       && (c.CheckBatch? || c.FinishBatch?) && c.batch == b && Step(guarded, db, c).1.Ok? then 1 else 0
  }

  /** One request on one batch row: the payload stays, the status moves forward only, and
      the version counts the validations and the posting. */
  ghost predicate RowStep(guarded: bool, db: Db, c: Command, b: Id, row: Batch, after: Batch) {
    && after == row.(status := after.status, rowVersion := after.rowVersion)
    && Rank(row.status) <= Rank(after.status)
    && after.rowVersion - PostedOnce(after.status)
       == row.rowVersion - PostedOnce(row.status) + Validates(guarded, db, c, b)
  }

  lemma PostBatchRows(guarded: bool, db: Db, t: Id, b: Id, id: Id)
    requires Sound(db) && PostBatch(guarded, db, t, b, id).Ok?
    ensures var after, row := PostBatch(guarded, db, t, b, id).value.0.batches, db.batches[b];
            && b in db.batches
            && after == if row.status == Posted then db.batches
                        else db.batches[b := row.(status := Posted, rowVersion := row.rowVersion + 2)]
  {
    hide Sound, PostManual, PayloadFault, JournalOfBatch;
    if db.batches[b].status != Posted {
      PostBatchOutcome(guarded, db, t, b, id);
      RestampSound(db, b);
      hide PostBatch;
      var v, row := Restamp(db, b, Validated), db.batches[b];
      PostManualSound(v, t, row.date, row.source, BATCH, b, row.entries, id);
      var r := PostManual(v, t, row.date, row.source, BATCH, b, row.entries, id).value.0;
      assert r.batches == v.batches;
      assert Restamp(r, b, Posted).batches == db.batches[b := row.(status := Posted, rowVersion := row.rowVersion + 2)];
    }
  }

  /** No request touches another batch, and a batch that appears is a draft of version 1. */
  lemma AttemptBatches(guarded: bool, db: Db, c: Command)
    requires Sound(db) && Attempt(guarded, db, c).Ok?
    ensures var after := Attempt(guarded, db, c).value.0.batches;
            match c
            case CreateBatch(doc, source, date, entries, id) =>
              id !in db.batches && after == db.batches[id := Batch(doc, source, Draft, date, entries, 1)]
            case CheckBatch(_, b) =>
              b in db.batches && after == if db.batches[b].status == Posted then db.batches
                else db.batches[b := db.batches[b].(status := Validated, rowVersion := db.batches[b].rowVersion + 1)]
            case FinishBatch(_, b, _) =>
              b in db.batches && after == if db.batches[b].status == Posted then db.batches
                else db.batches[b := db.batches[b].(status := Posted, rowVersion := db.batches[b].rowVersion + 2)]
            case _ => after == db.batches
  {
    hide Sound, PostManual, PostBatch, SeedMonths, PayloadFault;
    match c
    case CreateJournal(t, date, source, docType, docId, entries, id) =>
      PostManualSound(db, t, date, source, docType, docId, entries, id);
    case ReverseJournal(t, j, id) =>
      if LinkKey(t, j) !in db.links {
        PostManualSound(db, t, db.journals[j].date, REVERSAL, REVERSAL, j, Mirrored(EntriesOf(db.lines, t, j), j), id);
      }
    case FinishBatch(t, b, id) => PostBatchRows(guarded, db, t, b, id);
    case SeedYear(t, y, ids) => SeedKeepsLedger(db, t, y, 12, ids);
    case _ =>
  }

  /** Status only moves from draft to validated to posted, the payload never changes, and
      the version counter advances by the validations and the posting alone. */
  lemma BatchStep(guarded: bool, db: Db, c: Command, b: Id)
    requires Inv(db)
    ensures var after := Step(guarded, db, c).0.batches;
            && (b in db.batches ==> b in after && RowStep(guarded, db, c, b, db.batches[b], after[b]))
            && (b in after && b !in db.batches ==> after[b].status == Draft && after[b].rowVersion == 1)
  {
    hide Sound, Projects, Attempt, Step;
    StepShape(guarded, db, c);
    if Attempt(guarded, db, c).Ok? {
      AttemptBatches(guarded, db, c);
    }
  }

  /** The committed validations of batch b in a run. */
  ghost function Validations(guarded: bool, db: Db, cs: seq<Command>, b: Id): nat {
    if cs == [] then 0
    else
      var n := |cs| - 1;
      Validations(guarded, db, cs[..n], b) + Validates(guarded, Run(guarded, db, cs[..n]), cs[n], b)
  }

  /** row_version is 1 plus the validations done plus one if posted, after any run. */
  lemma {:induction false} RowVersionCounts(guarded: bool, db: Db, cs: seq<Command>, b: Id)
    requires Inv(db) && b !in db.batches
    ensures var after := Run(guarded, db, cs).batches;
            if b in after then after[b].rowVersion == 1 + Validations(guarded, db, cs, b) + PostedOnce(after[b].status)
            else Validations(guarded, db, cs, b) == 0
  {
    hide Inv, Step;
    if cs != [] {
      var n := |cs| - 1;
      RowVersionCounts(guarded, db, cs[..n], b);
      RunInv(guarded, db, cs[..n]);
      BatchStep(guarded, Run(guarded, db, cs[..n]), cs[n], b);
    }
  }

  lemma {:induction false} BatchRun(guarded: bool, db: Db, cs: seq<Command>, b: Id)
    requires Inv(db) && b in db.batches
    ensures var after := Run(guarded, db, cs).batches;
            && b in after && Rank(db.batches[b].status) <= Rank(after[b].status)
            && after[b] == db.batches[b].(status := after[b].status, rowVersion := after[b].rowVersion)
  {
    hide Inv, Step;
    if cs != [] {
      var n := |cs| - 1;
      BatchRun(guarded, db, cs[..n], b);
      RunInv(guarded, db, cs[..n]);
      BatchStep(guarded, Run(guarded, db, cs[..n]), cs[n], b);
    }
  }

  /** In every reachable ledger a batch is posted exactly when one journal carries its id, that
      journal is the only one, and it is the batch's document. */
  lemma PostedBatchJournal(db: Db, b: Id)
    requires Inv(db) && b in db.batches
    ensures db.batches[b].status == Posted <==> exists j :: Carries(db.batchOf, j, b)
    ensures forall j :: Carries(db.batchOf, j, b) ==>
              j in db.journals && DocOf(db.journals[j]) == DocKey(db.batches[b].doc.tenant, BATCH, b)
    ensures forall i, j :: Carries(db.batchOf, i, b) && Carries(db.batchOf, j, b) ==> i == j
  {
    hide PeriodsOk, AccountsOk, JournalsOk, LinesOk, BalancedOk, LinksOk, Projects;
  }

  /** If callers leave the reserved document types alone, its date and lines are the payload's. */
  lemma PostedBatchPayload(db: Db, b: Id, j: Id)
    requires Reachable(db) && b in db.batches && Carries(db.batchOf, j, b)
    ensures j in db.journals && db.journals[j].date == db.batches[b].date
    ensures EntriesOf(db.lines, db.journals[j].tenant, j) == db.batches[b].entries
  {
    var guarded, cs :| (forall c :: c in cs ==> Disciplined(c)) && db == Run(guarded, EMPTY_DB, cs);
    RunGenuine(guarded, cs);
    hide PeriodsOk, AccountsOk, JournalsOk, LinesOk, BalancedOk, LinksOk, Projects, LinksGenuine, ReversalsLinked, Run;
    assert BatchJournal(db.batchOf, db.batches, db.lines, j, db.journals[j]);
  }

  // ----- Posting for the first time -----

  /** Journal j carries batch b, and its date and lines are the payload's. */
  ghost predicate HoldsPayload(db: Db, t: Id, b: Id, j: Id) {
    && b in db.batches && j in db.journals && Carries(db.batchOf, j, b)
    && db.journals[j].tenant == t && db.journals[j].date == db.batches[b].date
    && EntriesOf(db.lines, t, j) == db.batches[b].entries
  }

  lemma FreshPostHolds(db: Db, t: Id, b: Id, id: Id)
    requires Sound(db) && PostBatch(false, db, t, b, id).Ok?
    requires db.batches[b].status != Posted && DocKey(t, BATCH, b) !in db.locks
    ensures var (work, j) := PostBatch(false, db, t, b, id).value;
            j == id && id !in db.journals && HoldsPayload(work, t, b, id)
  {
    hide Sound, PostBatch, PeriodFor, LinesOk, EntriesOf;
    FreshBatchPost(false, db, t, b, id);
    SoundLines(db);
    var row := Journal(t, db.batches[b].date, PeriodFor(db, t, db.batches[b].date).value,
                       db.batches[b].source, BATCH, b, |db.journals|);
    EntriesAfterInsert(db, id, row, db.batches[b].entries, t, id);
  }

  lemma TakenPost(db: Db, t: Id, b: Id, id: Id)
    requires Sound(db) && PostBatch(false, db, t, b, id).Ok?
    requires db.batches[b].status != Posted && DocKey(t, BATCH, b) in db.locks
    ensures var (work, j) := PostBatch(false, db, t, b, id).value;
            && j == db.locks[DocKey(t, BATCH, b)] && j in db.journals
            && work.lines == db.lines && work.journals == db.journals
            && Carries(work.batchOf, j, b) && b in work.batches && work.batches[b].status == Posted
  {
    hide Sound, PostBatch, PostManual, PayloadFault, PeriodFor, BalanceFault, AccountFault;
    PostBatchOutcome(false, db, t, b, id);
    LockedJournal(db, DocKey(t, BATCH, b));
    var v, row := Restamp(db, b, Validated), db.batches[b];
    PostManualOutcome(v, t, row.date, row.source, BATCH, b, row.entries, id);
  }

  /** The first post of a batch adds a journal with the payload's date and lines exactly when no
      journal has taken the document (BATCH, batch id) before. */
  lemma BatchPostsPayloadExactlyWhen(db: Db, t: Id, b: Id, id: Id)
    requires Inv(db) && OwnBatch(db, t, b) && db.batches[b].status != Posted
    requires Step(false, db, FinishBatch(t, b, id)).1.Ok?
    ensures var (after, r) := Step(false, db, FinishBatch(t, b, id));
            (r.value !in db.journals && HoldsPayload(after, t, b, r.value)) <==> (DocKey(t, BATCH, b) !in db.locks)
  {
    hide Sound, Projects, Step, PostBatch, HoldsPayload;
    StepShape(false, db, FinishBatch(t, b, id));
    var (after, r) := Step(false, db, FinishBatch(t, b, id));
    if DocKey(t, BATCH, b) in db.locks {
      TakenPost(db, t, b, id);
    } else {
      FreshPostHolds(db, t, b, id);
      SameHolds(PostBatch(false, db, t, b, id).value.0, after, t, b, id);
    }
  }

  lemma SameHolds(work: Db, after: Db, t: Id, b: Id, j: Id)
    requires HoldsPayload(work, t, b, j) && after == work.(balances := after.balances)
    ensures HoldsPayload(after, t, b, j)
  {
  }

  /** The failing family: a journal posted by hand under (BATCH, batch id) is given the batch's
      id, the batch becomes posted, and its payload is never booked. */
  lemma TakenBatchPostsNothing(db: Db, t: Id, b: Id, id: Id)
    requires Inv(db) && OwnBatch(db, t, b) && db.batches[b].status != Posted && DocKey(t, BATCH, b) in db.locks
    requires Step(false, db, FinishBatch(t, b, id)).1.Ok?
    ensures var (after, r) := Step(false, db, FinishBatch(t, b, id));
            && r == Ok(db.locks[DocKey(t, BATCH, b)])
            && after.lines == db.lines && after.journals == db.journals
            && Carries(after.batchOf, r.value, b) && b in after.batches && after.batches[b].status == Posted
  {
    hide Sound, Projects, Step, PostBatch;
    StepShape(false, db, FinishBatch(t, b, id));
    TakenPost(db, t, b, id);
  }

  /** What a batch posted stays with it: after any later requests, disciplined or not, the
      journal that carries the batch has the payload's date and lines. */
  lemma {:induction false} PayloadStays(guarded: bool, db: Db, cs: seq<Command>, t: Id, b: Id, j: Id)
    requires Inv(db) && HoldsPayload(db, t, b, j)
    ensures HoldsPayload(Run(guarded, db, cs), t, b, j)
  {
    hide Inv, Step, HoldsPayload;
    if cs != [] {
      var n := |cs| - 1;
      PayloadStays(guarded, db, cs[..n], t, b, j);
      RunInv(guarded, db, cs[..n]);
      PayloadStep(guarded, Run(guarded, db, cs[..n]), cs[n], t, b, j);
    }
  }

  lemma PayloadStep(guarded: bool, db: Db, c: Command, t: Id, b: Id, j: Id)
    requires Inv(db) && HoldsPayload(db, t, b, j)
    ensures HoldsPayload(Step(guarded, db, c).0, t, b, j)
  {
    hide Sound, Projects, Attempt, Step, Extends;
    StepShape(guarded, db, c);
    if Attempt(guarded, db, c).Ok? {
      AttemptSound(guarded, db, c);
      StepGrows(guarded, db, c);
      BatchStep(guarded, db, c, b);
      var work, after := Attempt(guarded, db, c).value.0, Step(guarded, db, c).0;
      EntriesStay(db, work, NewJournal(c), t, j);
    }
  }

  /** So in any run, a batch whose document was free when it was posted has its payload booked
      for good. */
  lemma FreeBatchBooksPayload(guarded: bool, db: Db, t: Id, b: Id, id: Id, cs: seq<Command>)
    requires Inv(db) && OwnBatch(db, t, b) && db.batches[b].status != Posted && DocKey(t, BATCH, b) !in db.locks
    requires Step(false, db, FinishBatch(t, b, id)).1.Ok?
    ensures var (after, r) := Step(false, db, FinishBatch(t, b, id));
            HoldsPayload(Run(guarded, after, cs), t, b, r.value)
  {
    hide Inv, Step, HoldsPayload;
    BatchPostsPayloadExactlyWhen(db, t, b, id);
    StepInv(false, db, FinishBatch(t, b, id));
    var (after, r) := Step(false, db, FinishBatch(t, b, id));
    PayloadStays(guarded, after, cs, t, b, r.value);
  }

  /** The document of a draft can be taken by an empty journal in the payload's open period; the
      post of the batch then answers that journal. */
  lemma BatchDocumentCanBeTaken(db: Db, t: Id, b: Id, id: Id, id': Id)
    requires Inv(db) && OwnBatch(db, t, b) && db.batches[b].status != Posted && id !in db.journals
    requires DocKey(t, BATCH, b) !in db.locks && PayloadFault(db, t, db.batches[b].date, db.batches[b].entries).None?
    ensures var (taken, r) := Step(false, db, CreateJournal(t, db.batches[b].date, "MANUAL", BATCH, b, [], id));
            && r == Ok(id) && Inv(taken) && EntriesOf(taken.lines, t, id) == []
            && var (after, answer) := Step(false, taken, FinishBatch(t, b, id'));
               && answer == Ok(id) && after.lines == taken.lines && Carries(after.batchOf, id, b)
               && b in after.batches && after.batches[b].status == Posted
  {
    hide Projects, Step, Sound, PostManual, PostBatch, PayloadFault, HoldsPayload;
    TakingPost(db, t, b, id);
    var taken := Step(false, db, CreateJournal(t, db.batches[b].date, "MANUAL", BATCH, b, [], id)).0;
    TakenPostSucceeds(taken, t, b, id');
    StepShape(false, taken, FinishBatch(t, b, id'));
    TakenBatchPostsNothing(taken, t, b, id');
  }

  lemma TakingPost(db: Db, t: Id, b: Id, id: Id)
    requires Inv(db) && OwnBatch(db, t, b) && id !in db.journals && DocKey(t, BATCH, b) !in db.locks
    requires PayloadFault(db, t, db.batches[b].date, db.batches[b].entries).None?
    ensures var (taken, r) := Step(false, db, CreateJournal(t, db.batches[b].date, "MANUAL", BATCH, b, [], id));
            && r == Ok(id) && Inv(taken) && EntriesOf(taken.lines, t, id) == []
            && taken.batches == db.batches && DocKey(t, BATCH, b) in taken.locks
               && taken.locks[DocKey(t, BATCH, b)] == id
            && PayloadFault(taken, t, db.batches[b].date, db.batches[b].entries).None?
  {
    hide Projects, Step, Sound, PostManual, BalanceFault, PeriodsOk, JournalsOk, LinesOk;
    var date, entries := db.batches[b].date, db.batches[b].entries;
    OpenForPayload(db, t, date, entries);
    EmptyPost(db, t, date, BATCH, b, id);
    SoundLines(db);
    SoundPeriodsJournals(db);
    StepShape(false, db, CreateJournal(t, date, "MANUAL", BATCH, b, [], id));
    hide PeriodFor;
    var row := Journal(t, date, PeriodFor(db, t, date).value, "MANUAL", BATCH, b, |db.journals|);
    EntriesAfterInsert(db, id, row, [], t, id);
    var taken := Step(false, db, CreateJournal(t, date, "MANUAL", BATCH, b, [], id)).0;
    SamePeriods(db, taken, t, date);
  }

  lemma OpenForPayload(db: Db, t: Id, date: int, entries: seq<Entry>)
    requires PayloadFault(db, t, date, entries).None?
    ensures PeriodFor(db, t, date).Some? && PeriodFor(db, t, date).value in db.periods
    ensures db.periods[PeriodFor(db, t, date).value].status == Open
  {
    hide BalanceFault;
  }

  lemma TakenPostSucceeds(db: Db, t: Id, b: Id, id: Id)
    requires Sound(db) && OwnBatch(db, t, b) && db.batches[b].status != Posted && DocKey(t, BATCH, b) in db.locks
    requires PayloadFault(db, t, db.batches[b].date, db.batches[b].entries).None?
    ensures PostBatch(false, db, t, b, id).Ok?
  {
    LockedJournal(db, DocKey(t, BATCH, b));
    hide Sound, PayloadFault;
  }

  /** With fn_block_mutation on the journals table, writing batch_id after the journal was
      flushed is rejected, so no post of an unposted batch can commit. */
  lemma GuardedPostFails(db: Db, t: Id, b: Id, id: Id)
    requires Inv(db) && b in db.batches && db.batches[b].status != Posted
    ensures Step(true, db, FinishBatch(t, b, id)).1.Err?
    ensures Step(true, db, FinishBatch(t, b, id)).0 == db
  {
    hide PeriodsOk, AccountsOk, JournalsOk, LinesOk, BalancedOk, LocksOk;
    hide LinksOk, BatchColumnOk, Projects, Step, PostManual, PayloadFault;
    StepShape(true, db, FinishBatch(t, b, id));
    forall j | j in db.batchOf ensures db.batchOf[j] != b {
      assert Carries(db.batchOf, j, db.batchOf[j]);
    }
    if PostBatch(true, db, t, b, id).Ok? {
      PostBatchOutcome(true, db, t, b, id);
      var v, row := Restamp(db, b, Validated), db.batches[b];
      PostManualOutcome(v, t, row.date, row.source, BATCH, b, row.entries, id);
      assert false;
    }
  }

  /** Hence under that trigger no run ever holds a posted batch. */
  lemma {:induction false} GuardedNeverPosts(cs: seq<Command>, b: Id)
    ensures var db := Run(true, EMPTY_DB, cs); Inv(db) && (b in db.batches ==> db.batches[b].status != Posted)
  {
    hide Inv, Step;
    EmptyInv();
    if cs != [] {
      var n := |cs| - 1;
      var mid := Run(true, EMPTY_DB, cs[..n]);
      GuardedNeverPosts(cs[..n], b);
      StepInv(true, mid, cs[n]);
      GuardedStep(mid, cs[n], b);
    }
  }

  lemma GuardedStep(db: Db, c: Command, b: Id)
    requires Inv(db) && (b in db.batches ==> db.batches[b].status != Posted)
    ensures var after := Step(true, db, c).0; b in after.batches ==> after.batches[b].status != Posted
  {
    hide Sound, Projects, Attempt, Step;
    StepShape(true, db, c);
    if Attempt(true, db, c).Ok? {
      AttemptBatches(true, db, c);
      if c.FinishBatch? && c.batch == b {
        GuardedPostFails(db, c.t, b, c.id);
      }
    }
  }

  /** Posting a batch again, after any other requests, answers the same journal. */
  lemma RepeatBatchPost(guarded: bool, db: Db, t: Id, b: Id, id: Id, cs: seq<Command>, id': Id)
    requires Inv(db) && Step(guarded, db, FinishBatch(t, b, id)).1.Ok?
    ensures var (first, r) := Step(guarded, db, FinishBatch(t, b, id));
            var later := Run(guarded, first, cs);
            Step(guarded, later, FinishBatch(t, b, id')) == (later, r)
  {
    hide Inv, Sound, Step, Projects, PostBatch, PostManual;
    var (first, r) := Step(guarded, db, FinishBatch(t, b, id));
    var later := Run(guarded, first, cs);
    FirstBatchPost(guarded, db, t, b, id);
    StepInv(guarded, db, FinishBatch(t, b, id));
    RunGrows(guarded, first, cs);
    BatchRun(guarded, first, cs, b);
    PostedAnswer(guarded, later, t, b, id', r.value);
  }

  lemma FirstBatchPost(guarded: bool, db: Db, t: Id, b: Id, id: Id)
    requires Inv(db) && Step(guarded, db, FinishBatch(t, b, id)).1.Ok?
    ensures var (first, r) := Step(guarded, db, FinishBatch(t, b, id));
            && OwnBatch(first, t, b) && first.batches[b].status == Posted && Carries(first.batchOf, r.value, b)
  {
    hide Sound, Step, Projects, PostManual, PayloadFault;
    StepShape(guarded, db, FinishBatch(t, b, id));
    PostBatchRows(guarded, db, t, b, id);
    if db.batches[b].status != Posted {
      PostBatchOutcome(guarded, db, t, b, id);
    }
  }

  lemma PostedAnswer(guarded: bool, db: Db, t: Id, b: Id, id: Id, j: Id)
    requires Inv(db) && OwnBatch(db, t, b) && db.batches[b].status == Posted && Carries(db.batchOf, j, b)
    ensures Step(guarded, db, FinishBatch(t, b, id)) == (db, Ok(j))
  {
    hide PeriodsOk, AccountsOk, JournalsOk, LinesOk, BalancedOk, LinksOk, Projects, BatchesOk;
    assert j in db.journals && DocOf(db.journals[j]) == DocKey(t, BATCH, b);
    assert JournalOfBatch(db, t, b) == Some(j);
    PublishNothing(db, db);
  }
}
