// Whole runs of the ledger: every request keeps the invariant, and the errors
// that would mean corrupt tables cannot occur.
module LedgerRuns {
  import opened Prelude
  import opened Calendar
  import opened Ledger
  import opened LedgerInvariant

  function NewJournal(c: Command): Id {
    match c
    case CreateJournal(_, _, _, _, _, _, id) => id
    case ReverseJournal(_, _, id) => id
    case FinishBatch(_, _, id) => id
    case _ => ""
  }

  /** A transaction inserts at most one journal, into an open period, and lines only for it. */
  predicate Extends(db: Db, work: Db, id: Id) {
    || (work.lines == db.lines && work.journals == db.journals)
    || (&& id !in db.journals && id in work.journals
        && work.journals == db.journals[id := work.journals[id]]
        && work.journals[id].period in db.periods && db.periods[work.journals[id].period].status == Open
        && db.lines <= work.lines
        && forall l :: l in work.lines[|db.lines|..] ==> l.journal == id)
  }

  // ----- Each transaction leaves sound tables -----

  lemma PostManualSound(db: Db, t: Id, date: int, source: string, docType: string, docId: string, entries: seq<Entry>,
                        id: Id)
    requires Sound(db)
    requires PostManual(db, t, date, source, docType, docId, entries, id).Ok?
    ensures var (work, j) := PostManual(db, t, date, source, docType, docId, entries, id).value;
            && Sound(work) && Extends(db, work, id)
            && work == db.(journals := work.journals, lines := work.lines, locks := work.locks)
            && DocKey(t, docType, docId) in work.locks && work.locks[DocKey(t, docType, docId)] == j
  {
    hide Sound, PostManual, BalanceFault, AccountFault, PeriodFor, Extends;
    PostManualOutcome(db, t, date, source, docType, docId, entries, id);
    if DocKey(t, docType, docId) in db.locks {
      assert Extends(db, db, id) by { NothingExtends(db, id); }
    } else {
      var row := Journal(t, date, PeriodFor(db, t, date).value, source, docType, docId, |db.journals|);
      InsertSound(db, id, row, entries);
      assert Extends(db, WithJournal(db, id, row, entries), id) by { InsertExtends(db, id, row, entries); }
    }
  }

  lemma NothingExtends(db: Db, id: Id)
    ensures Extends(db, db, id)
  {
  }

  lemma InsertExtends(db: Db, id: Id, row: Journal, entries: seq<Entry>)
    requires id !in db.journals && InsertTriggerAccepts(db, row)
    ensures Extends(db, WithJournal(db, id, row, entries), id)
  {
  }

  lemma ReverseSound(db: Db, t: Id, j: Id, id: Id)
    requires Sound(db) && Reverse(db, t, j, id).Ok?
    ensures var work := Reverse(db, t, j, id).value.0;
            Sound(work) && Extends(db, work, id) && work.balances == db.balances
  {
    hide PeriodsOk, AccountsOk, JournalsOk, LinesOk, BalancedOk, BatchColumnOk, BatchesOk, PostManual;
    if LinkKey(t, j) !in db.links {
      var entries := Mirrored(EntriesOf(db.lines, t, j), j);
      PostManualSound(db, t, db.journals[j].date, REVERSAL, REVERSAL, j, entries, id);
      var (posted, r) := PostManual(db, t, db.journals[j].date, REVERSAL, REVERSAL, j, entries, id).value;
      AddLink(posted.links, posted.journals, LinkKey(t, j), r);
    }
  }

  lemma AddLink(links: map<LinkKey, Id>, journals: map<Id, Journal>, k: LinkKey, r: Id)
    requires LinksOk(links, journals) && LinkOk(journals, k, r)
    ensures LinksOk(links[k := r], journals)
  {
  }

  lemma RestampSound(db: Db, b: Id)
    requires Sound(db) && b in db.batches && db.batches[b].status != Posted
    ensures Sound(Restamp(db, b, Validated))
  {
    hide PeriodsOk, AccountsOk, JournalsOk, LinesOk, BalancedOk, LocksOk, LinksOk, BatchColumnOk, BatchesOk;
    RestampColumn(db.batchOf, db.batches, db.journals, b);
    RestampBatches(db.batchOf, db.batches, b);
  }

  lemma RestampColumn(batchOf: map<Id, Id>, batches: map<Id, Batch>, journals: map<Id, Journal>, b: Id)
    requires BatchColumnOk(batchOf, batches, journals) && b in batches
    ensures var row := batches[b].(status := Validated, rowVersion := batches[b].rowVersion + 1);
            BatchColumnOk(batchOf, batches[b := row], journals)
  {
  }

  lemma RestampBatches(batchOf: map<Id, Id>, batches: map<Id, Batch>, b: Id)
    requires BatchesOk(batchOf, batches) && b in batches && batches[b].status != Posted
    ensures var row := batches[b].(status := Validated, rowVersion := batches[b].rowVersion + 1);
            BatchesOk(batchOf, batches[b := row])
  {
    hide BalanceFault, Carries;
  }

  lemma CarryBatch(batchOf: map<Id, Id>, batches: map<Id, Batch>, journals: map<Id, Journal>, j: Id, b: Id)
    requires BatchColumnOk(batchOf, batches, journals) && BatchesOk(batchOf, batches)
    requires b in batches && j in journals && DocOf(journals[j]) == DocKey(batches[b].doc.tenant, BATCH, b)
    ensures var posted := batches[b := batches[b].(status := Posted, rowVersion := batches[b].rowVersion + 1)];
            BatchColumnOk(batchOf[j := b], posted, journals) && BatchesOk(batchOf[j := b], posted)
  {
    var posted := batches[b := batches[b].(status := Posted, rowVersion := batches[b].rowVersion + 1)];
    var column := batchOf[j := b];
    assert BatchColumnOk(column, posted, journals) by { hide BatchesOk; }
    assert j in batchOf ==> batchOf[j] == b;
    hide BatchColumnOk, DocOf;
    forall c | c in posted
      ensures posted[c].status == Posted <==> exists i :: Carries(column, i, c)
    {
      if c == b {
        assert Carries(column, j, b);
      } else {
        assert forall i :: Carries(column, i, c) <==> Carries(batchOf, i, c);
      }
    }
  }

  /** post_batch by cases. */
  lemma PostBatchCases(guarded: bool, db: Db, t: Id, b: Id, id: Id)
    ensures var r := PostBatch(guarded, db, t, b, id);
            if !OwnBatch(db, t, b) then r == Err(BatchNotFound)
            else if db.batches[b].status == Posted then
              r == if JournalOfBatch(db, t, b).Some? then Ok((db, JournalOfBatch(db, t, b).value))
                else Err(BatchCorrupt)
            else
              var row := db.batches[b];
              var f, p := PayloadFault(db, t, row.date, row.entries),
                          PostManual(Restamp(db, b, Validated), t, row.date, row.source, BATCH, b, row.entries, id);
              if f.Some? then r == Err(f.value)
              else if p.Err? then r == Err(p.error)
              else
                && b in p.value.0.batches
                && r == if guarded && !Carries(p.value.0.batchOf, p.value.1, b) then Err(ImmutableTable)
                        else Ok((Restamp(p.value.0, b, Posted).(batchOf := p.value.0.batchOf[p.value.1 := b]),
                                 p.value.1))
  {
    hide PayloadFault;
    if OwnBatch(db, t, b) && db.batches[b].status != Posted {
      var v, row := Restamp(db, b, Validated), db.batches[b];
      if PostManual(v, t, row.date, row.source, BATCH, b, row.entries, id).Ok? {
        PostManualOutcome(v, t, row.date, row.source, BATCH, b, row.entries, id);
      }
    }
  }

  lemma PostBatchSound(guarded: bool, db: Db, t: Id, b: Id, id: Id)
    requires Sound(db) && PostBatch(guarded, db, t, b, id).Ok?
    ensures var work := PostBatch(guarded, db, t, b, id).value.0;
            Sound(work) && Extends(db, work, id) && work.balances == db.balances
  {
    hide PeriodsOk, AccountsOk, JournalsOk, LinesOk, BalancedOk, LinksOk, BatchColumnOk, BatchesOk, PostManual;
    if db.batches[b].status != Posted {
      RestampSound(db, b);
      var v := Restamp(db, b, Validated);
      var row := v.batches[b];
      PostManualSound(v, t, row.date, row.source, BATCH, b, row.entries, id);
      var (posted, j) := PostManual(v, t, row.date, row.source, BATCH, b, row.entries, id).value;
      CarryBatch(posted.batchOf, posted.batches, posted.journals, j, b);
    }
  }

  lemma AddPeriod(periods: map<Id, Period>, id: Id, t: Id, y: int, m: int)
    requires PeriodsOk(periods) && id !in periods
    requires FIRST_YEAR <= y <= LAST_YEAR && 1 <= m <= 12
    requires forall p :: p in periods && periods[p].tenant == t && periods[p].year == y ==> periods[p].month != m
    ensures PeriodsOk(periods[id := Period(t, y, m, Ordinal(y, m, 1), Ordinal(y, m, DaysInMonth(y, m)), Open)])
  {
    hide Ordinal, DaysInMonth, MonthStart, MonthIndex;
    MonthsAbut(y, m);
  }

  lemma {:induction false} SeedSound(db: Db, t: Id, y: int, m: nat, ids: nat -> Id)
    requires m <= 12 && FIRST_YEAR <= y <= LAST_YEAR
    requires PeriodsOk(db.periods) && SeedMonths(db, t, y, m, ids).Ok?
    ensures var periods := SeedMonths(db, t, y, m, ids).value.periods;
            && PeriodsOk(periods)
            && (forall p :: p in db.periods ==> p in periods && periods[p] == db.periods[p])
  {
    hide PeriodsOk, Ordinal, DaysInMonth;
    if m > 0 {
      SeedSound(db, t, y, m - 1, ids);
      var before := SeedMonths(db, t, y, m - 1, ids).value;
      if !HasMonth(before, t, y, m) {
        AddPeriod(before.periods, ids(m), t, y, m);
      }
    }
  }

  lemma StatusSound(db: Db, p: Id, status: PeriodStatus)
    requires Sound(db) && p in db.periods
    ensures Sound(db.(periods := db.periods[p := db.periods[p].(status := status)]))
  {
    hide AccountsOk, LinesOk, BalancedOk, LocksOk, LinksOk, BatchColumnOk, BatchesOk, PeriodsOk, JournalsOk;
    StatusPeriods(db.periods, p, status);
    StatusJournals(db.journals, db.periods, p, status);
  }

  lemma StatusPeriods(periods: map<Id, Period>, p: Id, status: PeriodStatus)
    requires PeriodsOk(periods) && p in periods
    ensures PeriodsOk(periods[p := periods[p].(status := status)])
  {
    hide MonthStart, MonthIndex;
  }

  lemma StatusJournals(journals: map<Id, Journal>, periods: map<Id, Period>, p: Id, status: PeriodStatus)
    requires JournalsOk(journals, periods) && p in periods
    ensures JournalsOk(journals, periods[p := periods[p].(status := status)])
  {
  }

  lemma AccountSound(db: Db, id: Id, a: Account)
    requires Sound(db) && AccountsOk(db.accounts[id := a])
    requires id in db.accounts ==> db.accounts[id].tenant == a.tenant
    ensures Sound(db.(accounts := db.accounts[id := a]))
  {
    forall l | l in db.lines ensures LineOk(db.journals, db.accounts[id := a], l) {
      assert LineOk(db.journals, db.accounts, l);
    }
  }

  lemma AddAccountSound(db: Db, id: Id, a: Account)
    requires Sound(db) && AddAccount(db, id, a).Ok?
    ensures Sound(AddAccount(db, id, a).value)
  {
    hide PeriodsOk, JournalsOk, LinesOk, BalancedOk, LocksOk, LinksOk, BatchColumnOk, BatchesOk;
    AccountSound(db, id, a);
  }

  lemma EditAccountSound(db: Db, t: Id, id: Id, kind: Option<string>, active: Option<bool>, needs: NeedsChange)
    requires Sound(db) && EditAccount(db, t, id, kind, active, needs).Ok?
    ensures Sound(EditAccount(db, t, id, kind, active, needs).value)
  {
    hide PeriodsOk, JournalsOk, LinesOk, BalancedOk, LocksOk, LinksOk, BatchColumnOk, BatchesOk;
    AccountSound(db, id, EditAccount(db, t, id, kind, active, needs).value.accounts[id]);
  }

  lemma SeedYearSound(db: Db, t: Id, y: int, ids: nat -> Id)
    requires Sound(db) && FIRST_YEAR <= y <= LAST_YEAR && SeedMonths(db, t, y, 12, ids).Ok?
    ensures Sound(SeedMonths(db, t, y, 12, ids).value)
  {
    hide PeriodsOk, AccountsOk, LinesOk, BalancedOk, LocksOk, LinksOk, BatchColumnOk, BatchesOk, SeedMonths;
    SeedSound(db, t, y, 12, ids);
    SeedKeepsLedger(db, t, y, 12, ids);
  }

  lemma DraftSound(db: Db, doc: DocKey, source: string, date: int, entries: seq<Entry>, id: Id)
    requires Sound(db) && DraftBatch(db, doc, source, date, entries, id).Ok?
    ensures Sound(DraftBatch(db, doc, source, date, entries, id).value.0)
  {
    hide PeriodsOk, AccountsOk, JournalsOk, LinesOk, BalancedOk, LocksOk, LinksOk, BalanceFault, PeriodFor;
    var batches := DraftBatch(db, doc, source, date, entries, id).value.0.batches;
    assert BatchColumnOk(db.batchOf, batches, db.journals);
    assert forall j :: j in db.batchOf ==> db.batchOf[j] != id;
    assert BatchesOk(db.batchOf, batches);
  }

  lemma AttemptSound(guarded: bool, db: Db, c: Command)
    requires Sound(db) && Attempt(guarded, db, c).Ok?
    ensures var work := Attempt(guarded, db, c).value.0;
            Sound(work) && Extends(db, work, NewJournal(c)) && work.balances == db.balances
  {
    hide Sound, PostManual, Reverse, PostBatch, SeedMonths;
    AttemptAppends(guarded, db, c);
    match c
    case CreateAccount(id, a) => AddAccountSound(db, id, a);
    case UpdateAccount(t, id, kind, active, needs) => EditAccountSound(db, t, id, kind, active, needs);
    case SeedYear(t, y, ids) =>
      SeedYearSound(db, t, y, ids);
      SeedKeepsLedger(db, t, y, 12, ids);
    case ClosePeriod(t, p) => StatusSound(db, p, Closed);
    case OpenPeriod(t, p) => StatusSound(db, p, Open);
    case CreateJournal(t, date, source, docType, docId, entries, id) =>
      PostManualSound(db, t, date, source, docType, docId, entries, id);
    case ReverseJournal(t, j, id) => ReverseSound(db, t, j, id);
    case CreateBatch(doc, source, date, entries, id) => DraftSound(db, doc, source, date, entries, id);
    case CheckBatch(t, b) =>
      if db.batches[b].status != Posted {
        RestampSound(db, b);
      }
    case FinishBatch(t, b, id) => PostBatchSound(guarded, db, t, b, id);
  }

  // ----- Requests -----

  /** The master invariant is kept by every request, whether it commits or fails. */
  lemma StepInv(guarded: bool, db: Db, c: Command)
    requires Inv(db)
    ensures Inv(Step(guarded, db, c).0)
  {
    StepShape(guarded, db, c);
  }

  /** A request that ends its block always commits: the deferred triggers never reject it,
      and the committed tables are the working copy with its balances brought up to date. */
  lemma StepShape(guarded: bool, db: Db, c: Command)
    requires Inv(db)
    ensures var (after, r) := Step(guarded, db, c);
            && Inv(after)
            && match Attempt(guarded, db, c)
               case Err(e) => r == Err(e) && after == db
               case Ok((work, id)) => r == Ok(id) && after == work.(balances := after.balances)
  {
    hide Sound, Projects, Attempt, Publish;
    var a := Attempt(guarded, db, c);
    if a.Ok? {
      AttemptSound(guarded, db, c);
      var work, id := a.value.0, NewJournal(c);
      if work.lines == db.lines && work.journals == db.journals {
        PublishNothing(db, work);
      } else {
        PublishInsert(db, work, id, work.journals[id], work.lines[|db.lines|..]);
      }
    }
  }

  /** The errors that mean corrupt rows, or a trigger rejecting what the service let through. */
  const CORRUPTIONS := {LockCorrupt, ReversalCorrupt, BatchCorrupt, JournalTrigger, BalanceTrigger}

  lemma CheckFaults(db: Db, t: Id, entries: seq<Entry>)
    ensures BalanceFault(entries) in {None, Some(InvalidAmount), Some(InvalidLine), Some(Unbalanced)}
    ensures AccountFault(db, t, entries) in
              {None, Some(AccountMissing), Some(AccountInactive), Some(DimensionRequired)}
  {
  }

  lemma LocksHeld(locks: map<DocKey, Id>, journals: map<Id, Journal>)
    requires LocksOk(locks, journals)
    ensures forall k :: k in locks ==> locks[k] in journals
  {
  }

  lemma PostManualFaults(db: Db, t: Id, date: int, source: string, docType: string, docId: string, entries: seq<Entry>,
                         id: Id)
    requires LocksOk(db.locks, db.journals)
    ensures var r := PostManual(db, t, date, source, docType, docId, entries, id);
            && (r.Err? ==> r.error !in CORRUPTIONS + {CheckViolation, ImmutableTable})
            && (r.Err? && r.error == UniqueViolation ==> id in db.journals)
  {
    hide AccountFault, BalanceFault, PeriodFor, LocksOk, WithJournal;
    CheckFaults(db, t, entries);
    assert DocKey(t, docType, docId) in db.locks ==> db.locks[DocKey(t, docType, docId)] in db.journals by {
      LocksHeld(db.locks, db.journals);
    }
    if id !in db.journals {
      ServicePassesTriggers(db, t, date, source, docType, docId, entries, id);
    }
  }

  lemma ReverseFaults(db: Db, t: Id, j: Id, id: Id)
    requires LocksOk(db.locks, db.journals) && LinksOk(db.links, db.journals)
    ensures var r := Reverse(db, t, j, id);
            r.Err? ==> r.error !in CORRUPTIONS + {CheckViolation, ImmutableTable}
  {
    hide LocksOk, PostManual;
    if j in db.journals {
      assert LinkKey(t, j) in db.links ==> LinkOk(db.journals, LinkKey(t, j), db.links[LinkKey(t, j)]);
      PostManualFaults(db, t, db.journals[j].date, REVERSAL, REVERSAL, j, Mirrored(EntriesOf(db.lines, t, j), j), id);
    }
  }

  lemma PayloadFaults(db: Db, t: Id, date: int, entries: seq<Entry>)
    ensures PayloadFault(db, t, date, entries) in
              {None, Some(InvalidAmount), Some(InvalidLine), Some(Unbalanced), Some(NoPeriod), Some(PeriodClosed)}
  {
  }

  lemma PostBatchFaults(guarded: bool, db: Db, t: Id, b: Id, id: Id)
    requires LocksOk(db.locks, db.journals)
    requires BatchColumnOk(db.batchOf, db.batches, db.journals) && BatchesOk(db.batchOf, db.batches)
    ensures var r := PostBatch(guarded, db, t, b, id);
            && (r.Err? ==> r.error !in CORRUPTIONS + {CheckViolation})
            && (r == Err(ImmutableTable) ==> guarded)
  {
    hide LocksOk, PostManual, PayloadFault;
    if OwnBatch(db, t, b) {
      var row := db.batches[b];
      if row.status == Posted {
        var j :| Carries(db.batchOf, j, b);
        assert DocOf(db.journals[j]).tenant == t;
      } else {
        PayloadFaults(db, t, row.date, row.entries);
        PostManualFaults(Restamp(db, b, Validated), t, row.date, row.source, BATCH, b, row.entries, id);
      }
    }
  }

  /** In a reachable ledger no request meets corrupt rows, and no insert or balance
      trigger rejects what the service let through. */
  lemma NoCorruption(guarded: bool, db: Db, c: Command)
    requires Inv(db)
    ensures var r := Step(guarded, db, c).1;
            && (r.Err? ==> r.error !in CORRUPTIONS)
            && (r == Err(ImmutableTable) ==> guarded && c.FinishBatch?)
            && (r == Err(CheckViolation) ==> c.CreateAccount? || c.UpdateAccount?)
  {
    hide Step, PostManual, Reverse, PostBatch, SeedMonths, PayloadFault;
    hide PeriodsOk, AccountsOk, JournalsOk, LinesOk, BalancedOk, LocksOk, LinksOk, BatchColumnOk, BatchesOk, Projects;
    StepShape(guarded, db, c);
    match c
    case CreateJournal(t, date, source, docType, docId, entries, id) =>
      PostManualFaults(db, t, date, source, docType, docId, entries, id);
    case ReverseJournal(t, j, id) => ReverseFaults(db, t, j, id);
    case CreateBatch(doc, source, date, entries, id) => PayloadFaults(db, doc.tenant, date, entries);
    case CheckBatch(t, b) =>
      if OwnBatch(db, t, b) {
        PayloadFaults(db, t, db.batches[b].date, db.batches[b].entries);
      }
    case FinishBatch(t, b, id) => PostBatchFaults(guarded, db, t, b, id);
    case SeedYear(t, y, ids) => SeedFaults(db, t, y, 12, ids);
    case _ =>
  }

  lemma {:induction false} SeedFaults(db: Db, t: Id, y: int, m: nat, ids: nat -> Id)
    requires m <= 12
    ensures SeedMonths(db, t, y, m, ids).Err? ==> SeedMonths(db, t, y, m, ids).error == UniqueViolation
  {
    if m > 0 {
      SeedFaults(db, t, y, m - 1, ids);
    }
  }

  // ----- Runs -----

  /** The committed tables after a sequence of requests. */
  ghost function Run(guarded: bool, db: Db, cs: seq<Command>): Db {
    if cs == [] then db else Step(guarded, Run(guarded, db, cs[..|cs| - 1]), cs[|cs| - 1]).0
  }

  /** Every committed state of every run satisfies the master invariant. */
  lemma {:induction false} RunInv(guarded: bool, db: Db, cs: seq<Command>)
    requires Inv(db)
    ensures Inv(Run(guarded, db, cs))
  {
    if cs != [] {
      RunInv(guarded, db, cs[..|cs| - 1]);
      StepInv(guarded, Run(guarded, db, cs[..|cs| - 1]), cs[|cs| - 1]);
    }
  }
}
