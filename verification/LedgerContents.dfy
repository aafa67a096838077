// What accepted requests put into the ledger, row by row, and what they leave alone.
module LedgerContents {
  import opened Prelude
  import opened Calendar
  import opened Ledger
  import opened LedgerInvariant
  import opened LedgerRuns
  import opened LedgerHistory
  import opened LedgerDocuments
  import opened LedgerBatches
  import opened LedgerAcceptance
  import opened LedgerAnswers

  /** The new lines stand at the end, one for each entry, in their order. */
  predicate Appends(lines: seq<Line>, after: seq<Line>, t: Id, j: Id, entries: seq<Entry>) {
    && |after| == |lines| + |entries| && after[..|lines|] == lines
    && forall i :: 0 <= i < |entries| ==> after[|lines| + i] == Line(t, j, entries[i])
  }

  /** Journal id is new: it has these fields, its period is open and holds its date, and these
      are its lines.  No other journal, line or posting lock is touched, and no account and no period. */
  predicate Books(db: Db, after: Db, id: Id, t: Id, date: int, source: string, docType: string, docId: string,
                  entries: seq<Entry>)
  {
    && id !in db.journals && id in after.journals && after.journals == db.journals[id := after.journals[id]]
    && (var j := after.journals[id];
        && j.tenant == t && j.date == date && j.source == source && j.docType == docType && j.docId == docId
        && j.order == |db.journals|
        && j.period in db.periods && db.periods[j.period].tenant == t && db.periods[j.period].status == Open
        && db.periods[j.period].start <= date <= db.periods[j.period].end)
    && Appends(db.lines, after.lines, t, id, entries) && EntriesOf(after.lines, t, id) == entries
    && after.locks == db.locks[DocKey(t, docType, docId) := id]
    && after.accounts == db.accounts && after.periods == db.periods
  }

  lemma InsertBooks(db: Db, id: Id, row: Journal, entries: seq<Entry>)
    requires LinesOk(db.lines, db.journals, db.accounts) && id !in db.journals
    requires row.period in db.periods && Covers(db.periods[row.period], row.tenant, row.date)
    requires db.periods[row.period].status == Open && row.order == |db.journals|
    ensures Books(db, WithJournal(db, id, row, entries), id, row.tenant, row.date, row.source, row.docType, row.docId,
                  entries)
  {
    EntriesAfterInsert(db, id, row, entries, row.tenant, id);
    assert Appends(db.lines, WithJournal(db, id, row, entries).lines, row.tenant, id, entries);
  }

  lemma SameBooked(db: Db, before: Db, work: Db, after: Db, id: Id, t: Id, date: int, source: string, docType: string,
                   docId: string, entries: seq<Entry>)
    requires Books(before, work, id, t, date, source, docType, docId, entries)
    requires before == db.(batches := before.batches)
    requires after.journals == work.journals && after.lines == work.lines && after.locks == work.locks
    requires after.accounts == work.accounts && after.periods == work.periods
    ensures Books(db, after, id, t, date, source, docType, docId, entries)
  {
  }

  lemma PostManualBooks(db: Db, t: Id, date: int, source: string, docType: string, docId: string, entries: seq<Entry>,
                        id: Id)
    requires Sound(db) && DocKey(t, docType, docId) !in db.locks
    requires PostManual(db, t, date, source, docType, docId, entries, id).Ok?
    ensures var (work, j) := PostManual(db, t, date, source, docType, docId, entries, id).value;
            && j == id && Books(db, work, id, t, date, source, docType, docId, entries)
            && work == db.(journals := work.journals, lines := work.lines, locks := work.locks)
  {
    hide Sound, PostManual, Books, PeriodFor, AccountFault, BalanceFault;
    PostManualOutcome(db, t, date, source, docType, docId, entries, id);
    SoundLines(db);
    var row := Journal(t, date, PeriodFor(db, t, date).value, source, docType, docId, |db.journals|);
    InsertBooks(db, id, row, entries);
  }

  /** An accepted journal whose document was free is booked as the caller sent it, and nothing
      else happens but that the balances follow. */
  lemma CreateJournalBooks(guarded: bool, db: Db, c: Command)
    requires Inv(db) && c.CreateJournal? && DocKey(c.t, c.docType, c.docId) !in db.locks
    requires Step(guarded, db, c).1.Ok?
    ensures var (after, r) := Step(guarded, db, c);
            && r == Ok(c.id) && Books(db, after, c.id, c.t, c.date, c.source, c.docType, c.docId, c.entries)
            && after.links == db.links && after.batches == db.batches && after.batchOf == db.batchOf
  {
    hide Sound, Projects, Step, PostManual, Books;
    StepShape(guarded, db, c);
    PostManualBooks(db, c.t, c.date, c.source, c.docType, c.docId, c.entries, c.id);
    var work := PostManual(db, c.t, c.date, c.source, c.docType, c.docId, c.entries, c.id).value.0;
    SameBooked(db, db, work, Step(guarded, db, c).0, c.id, c.t, c.date, c.source, c.docType, c.docId, c.entries);
  }

  // ----- Reversals -----

  /** Each line with its sides exchanged, on the same account and department, and nothing else kept. */
  predicate Exchanged(entries: seq<Entry>, mirrored: seq<Entry>, j: Id) {
    |mirrored| == |entries|
    && forall i :: 0 <= i < |entries| ==>
         var e, m := entries[i], mirrored[i];
         && m.account == e.account && m.debit == e.credit && m.credit == e.debit
         && m.dims.department == e.dims.department && m.dims.store == None && m.dims.salesperson == None
         && m.dims.vehicle == None && m.dims.repairOrder == None && m.reference == Some("REVERSAL of " + j)
  }

  lemma MirroredExchanges(entries: seq<Entry>, j: Id)
    ensures Exchanged(entries, Mirrored(entries, j), j)
  {
  }

  lemma ReverseBooks(db: Db, t: Id, j: Id, id: Id)
    requires Sound(db) && Reverse(db, t, j, id).Ok?
    requires LinkKey(t, j) !in db.links && DocKey(t, "REVERSAL", j) !in db.locks
    ensures var (work, r) := Reverse(db, t, j, id).value;
            var mirrored := EntriesOf(work.lines, t, id);
            && r == id && j in db.journals && Exchanged(EntriesOf(db.lines, t, j), mirrored, j)
            && Books(db, work, id, t, db.journals[j].date, "REVERSAL", "REVERSAL", j, mirrored)
            && work.links == db.links[LinkKey(t, j) := id]
            && work.batches == db.batches && work.batchOf == db.batchOf
  {
    hide Sound, PostManual, Books, PeriodFor, EntriesOf, Exchanged;
    var date, entries := db.journals[j].date, Mirrored(EntriesOf(db.lines, t, j), j);
    MirroredExchanges(EntriesOf(db.lines, t, j), j);
    PostManualBooks(db, t, date, "REVERSAL", "REVERSAL", j, entries, id);
    var posted := PostManual(db, t, date, "REVERSAL", "REVERSAL", j, entries, id).value.0;
    SameBooked(db, db, posted, Reverse(db, t, j, id).value.0, id, t, date, "REVERSAL", "REVERSAL", j, entries);
    BookedEntries(db, Reverse(db, t, j, id).value.0, id, t, date, "REVERSAL", "REVERSAL", j, entries);
  }

  lemma BookedEntries(db: Db, after: Db, id: Id, t: Id, date: int, source: string, docType: string, docId: string,
                      entries: seq<Entry>)
    requires Books(db, after, id, t, date, source, docType, docId, entries)
    ensures EntriesOf(after.lines, t, id) == entries
  {
  }

  lemma TakenReverse(db: Db, t: Id, j: Id, id: Id)
    requires Sound(db) && Reverse(db, t, j, id).Ok?
    requires LinkKey(t, j) !in db.links && DocKey(t, "REVERSAL", j) in db.locks
    ensures var taker := db.locks[DocKey(t, "REVERSAL", j)];
            Reverse(db, t, j, id) == Ok((db.(links := db.links[LinkKey(t, j) := taker]), taker))
  {
    hide Sound, PostManual, PeriodFor, EntriesOf;
    LockedJournal(db, DocKey(t, "REVERSAL", j));
    LockedAnswers(db, t, db.journals[j].date, "REVERSAL", "REVERSAL", j, Mirrored(EntriesOf(db.lines, t, j), j), id);
  }

  /** An accepted reversal: of a linked journal, nothing happens; with its document taken, the link
      alone is stored; and otherwise the exchanged lines are booked on the original's date. */
  lemma ReverseJournalBooks(guarded: bool, db: Db, t: Id, j: Id, id: Id)
    requires Inv(db) && Step(guarded, db, ReverseJournal(t, j, id)).1.Ok?
    ensures var (after, r) := Step(guarded, db, ReverseJournal(t, j, id));
            var doc := DocKey(t, "REVERSAL", j);
            j in db.journals &&
            if LinkKey(t, j) in db.links then (after, r) == (db, Ok(db.links[LinkKey(t, j)]))
            else if doc in db.locks then
              (after, r) == (db.(links := db.links[LinkKey(t, j) := db.locks[doc]]), Ok(db.locks[doc]))
            else
              var mirrored := EntriesOf(after.lines, t, id);
              && r == Ok(id) && Exchanged(EntriesOf(db.lines, t, j), mirrored, j)
              && Books(db, after, id, t, db.journals[j].date, "REVERSAL", "REVERSAL", j, mirrored)
              && after.links == db.links[LinkKey(t, j) := id]
              && after.batches == db.batches && after.batchOf == db.batchOf
  {
    hide Sound, Projects, Step, Reverse, Books, Exchanged, EntriesOf;
    StepShape(guarded, db, ReverseJournal(t, j, id));
    OwnReversal(db, t, j, id);
    if LinkKey(t, j) in db.links {
      LinkedReversal(guarded, db, t, j, id);
    } else if DocKey(t, "REVERSAL", j) in db.locks {
      TakenReverse(db, t, j, id);
      QuietStep(guarded, db, ReverseJournal(t, j, id));
    } else {
      ReverseBooks(db, t, j, id);
      var work, after := Reverse(db, t, j, id).value.0, Step(guarded, db, ReverseJournal(t, j, id)).0;
      SameBooked(db, db, work, after, id, t, db.journals[j].date, "REVERSAL", "REVERSAL", j,
                 EntriesOf(work.lines, t, id));
    }
  }

  lemma OwnReversal(db: Db, t: Id, j: Id, id: Id)
    requires Reverse(db, t, j, id).Ok?
    ensures j in db.journals && db.journals[j].tenant == t
  {
    hide PostManual, PeriodFor;
  }

  // ----- Batches -----

  function PostedRow(row: Batch): Batch {
    Batch(row.doc, row.source, Posted, row.date, row.entries, row.rowVersion + 2)
  }

  /** post_batch without the update trigger: what it answers, and what it books. */
  ghost predicate BatchPosts(db: Db, after: Db, t: Id, b: Id, id: Id, r: Result<Id, Fault>)
    requires b in db.batches
  {
    var row, doc := db.batches[b], DocKey(t, "BATCH", b);
    if !PayloadFine(db, t, row.date, row.entries) then
      after == db && r.Err? && PayloadWrong(db, t, row.date, row.entries, r.error)
    else if doc in db.locks then
      && r == Ok(db.locks[doc])
      && after == db.(batchOf := db.batchOf[db.locks[doc] := b], batches := db.batches[b := PostedRow(row)])
    else if !AccountsFine(db, t, row.entries) then
      after == db && r.Err? && AccountsWrong(db, t, row.entries, r.error)
    else if id in db.journals then (after, r) == (db, Err(UniqueViolation))
    else
      && r == Ok(id) && Books(db, after, id, t, row.date, row.source, "BATCH", b, row.entries)
      && after.batchOf == db.batchOf[id := b] && after.batches == db.batches[b := PostedRow(row)]
      && after.links == db.links
  }

  lemma FinishBatchDoes(db: Db, t: Id, b: Id, id: Id)
    requires Inv(db)
    ensures var (after, r) := Step(false, db, FinishBatch(t, b, id));
            if b !in db.batches || db.batches[b].doc.tenant != t then (after, r) == (db, Err(BatchNotFound))
            else if db.batches[b].status == Posted then after == db && r.Ok? && Carries(db.batchOf, r.value, b)
            else BatchPosts(db, after, t, b, id, r)
  {
    hide Inv, Sound, Projects, Step, PostBatch, BatchPosts;
    var c := FinishBatch(t, b, id);
    PostBatchCases(false, db, t, b, id);
    if b !in db.batches || db.batches[b].doc.tenant != t {
      FailedStep(false, db, c);
    } else if db.batches[b].status == Posted {
      assert Sound(db) by { InvSound(db); }
      SoundCarrier(db, b);
      var j :| Carries(db.batchOf, j, b);
      PostedAnswer(false, db, t, b, id, j);
    } else {
      FirstPostDoes(db, t, b, id);
    }
  }

  /** With the trigger that blocks updates of journals, every post of an unposted batch fails: for
      the reason it has anyway, or else because of the trigger. */
  lemma GuardedFinishDoes(db: Db, t: Id, b: Id, id: Id)
    requires Inv(db)
    ensures var c := FinishBatch(t, b, id);
            var free := Step(false, db, c);
            Step(true, db, c) ==
              if b !in db.batches || db.batches[b].doc.tenant != t || db.batches[b].status == Posted then free
              else (db, Err(if free.1.Err? then free.1.error else ImmutableTable))
  {
    hide Inv, Sound, Projects, Step, PostBatch, PostManual, PayloadFault;
    var c := FinishBatch(t, b, id);
    PostBatchCases(true, db, t, b, id);
    PostBatchCases(false, db, t, b, id);
    StepShape(false, db, c);
    if b !in db.batches || db.batches[b].doc.tenant != t {
      FailedStep(true, db, c);
      FailedStep(false, db, c);
    } else if db.batches[b].status == Posted {
      InvSound(db);
      SoundCarrier(db, b);
      var j :| Carries(db.batchOf, j, b);
      PostedAnswer(true, db, t, b, id, j);
      PostedAnswer(false, db, t, b, id, j);
    } else {
      GuardedPostFails(db, t, b, id);
      StepShape(true, db, c);
    }
  }

  lemma InvSound(db: Db)
    requires Inv(db)
    ensures Sound(db)
  {
    hide Sound, Projects;
  }

  /** The answers depend on periods, accounts and journals alone. */
  lemma SameAnswers(db: Db, v: Db, t: Id, d: int, entries: seq<Entry>)
    requires v.periods == db.periods && v.accounts == db.accounts && v.journals == db.journals
    ensures PayloadFine(v, t, d, entries) <==> PayloadFine(db, t, d, entries)
    ensures AccountsFine(v, t, entries) <==> AccountsFine(db, t, entries)
    ensures forall f :: AccountsWrong(v, t, entries, f) <==> AccountsWrong(db, t, entries, f)
  {
    hide Clean;
  }

  lemma FirstPostDoes(db: Db, t: Id, b: Id, id: Id)
    requires Inv(db) && OwnBatch(db, t, b) && db.batches[b].status != Posted
    ensures var (after, r) := Step(false, db, FinishBatch(t, b, id)); BatchPosts(db, after, t, b, id, r)
  {
    hide Inv, Sound, Projects, Step, PostBatch, PayloadFault, PayloadWrong, PayloadFine, PeriodsOk;
    hide AccountsFine, AccountsWrong, PostManual, Books;
    var c, row := FinishBatch(t, b, id), db.batches[b];
    var v := Restamp(db, b, Validated);
    PostBatchCases(false, db, t, b, id);
    InvPeriods(db);
    InvSound(db);
    PayloadFaultIs(db, t, row.date, row.entries);
    SameAnswers(db, v, t, row.date, row.entries);
    if PayloadFault(db, t, row.date, row.entries).Some? {
      FailedStep(false, db, c);
    } else if DocKey(t, "BATCH", b) in db.locks {
      HeldLock(db, DocKey(t, "BATCH", b));
      LockedAnswers(v, t, row.date, row.source, "BATCH", b, row.entries, id);
      QuietStep(false, db, c);
    } else {
      PostManualAnswers(v, t, row.date, row.source, "BATCH", b, row.entries, id);
      if PostManual(v, t, row.date, row.source, "BATCH", b, row.entries, id).Ok? {
        FreshPostBooks(db, t, b, id);
      } else {
        FailedStep(false, db, c);
      }
    }
  }

  lemma FreshPostBooks(db: Db, t: Id, b: Id, id: Id)
    requires Inv(db) && OwnBatch(db, t, b) && db.batches[b].status != Posted && DocKey(t, "BATCH", b) !in db.locks
    requires PostBatch(false, db, t, b, id).Ok?
    ensures var (after, r) := Step(false, db, FinishBatch(t, b, id));
            var row := db.batches[b];
            && r == Ok(id) && Books(db, after, id, t, row.date, row.source, "BATCH", b, row.entries)
            && after.batchOf == db.batchOf[id := b] && after.batches == db.batches[b := PostedRow(row)]
            && after.links == db.links
  {
    hide Inv, Sound, Projects, Step, PostBatch, PayloadFault, PostManual, Books;
    var row, v := db.batches[b], Restamp(db, b, Validated);
    InvSound(db);
    PostBatchOutcome(false, db, t, b, id);
    RestampSound(db, b);
    PostManualBooks(v, t, row.date, row.source, "BATCH", b, row.entries, id);
    var posted := PostManual(v, t, row.date, row.source, "BATCH", b, row.entries, id).value.0;
    StepShape(false, db, FinishBatch(t, b, id));
    var after := Step(false, db, FinishBatch(t, b, id)).0;
    SameBooked(db, v, posted, after, id, t, row.date, row.source, "BATCH", b, row.entries);
  }

  // ----- Periods -----

  /** No post with a free document reaches a period that was closed, whatever requests came in
      between, unless one of them reopened it; balanced lines are told so. */
  lemma ClosedRefusesPosts(guarded: bool, db: Db, t: Id, p: Id, cs: seq<Command>, c: Command)
    requires Inv(db) && Step(guarded, db, ClosePeriod(t, p)).1.Ok?
    requires forall d :: d in cs ==> !(d.OpenPeriod? && d.period == p)
    requires c.CreateJournal? && c.t == t && p in db.periods && db.periods[p].start <= c.date <= db.periods[p].end
    requires DocKey(t, c.docType, c.docId) !in Run(guarded, Step(guarded, db, ClosePeriod(t, p)).0, cs).locks
    ensures var later := Run(guarded, Step(guarded, db, ClosePeriod(t, p)).0, cs);
            var (after, r) := Step(guarded, later, c);
            && after == later && r.Err?
            && (Clean(c.entries) && DebitTotal(c.entries) == CreditTotal(c.entries) ==> r == Err(PeriodClosed))
  {
    hide Inv, Step, Run, SamePeriodBooks, CreditTotal, DebitTotal, Clean, Grows, PeriodsOk;
    var closed := Step(guarded, db, ClosePeriod(t, p)).0;
    ClosePeriodDoes(guarded, db, t, p);
    StepInv(guarded, db, ClosePeriod(t, p));
    ClosedPeriodFrozen(guarded, closed, cs, p);
    RunGrows(guarded, closed, cs);
    var later := Run(guarded, closed, cs);
    KeptDates(closed, later, p);
    ClosedDate(later, t, p, c.date);
    CreateJournalAnswers(guarded, later, c);
    if Clean(c.entries) && DebitTotal(c.entries) == CreditTotal(c.entries) {
      InvPeriods(later);
      OnePayloadFault(later, t, c.date, c.entries, PeriodClosed, Step(guarded, later, c).1.error);
    }
  }

  lemma KeptDates(a: Db, b: Db, p: Id)
    requires Grows(a, b) && p in a.periods
    ensures p in b.periods && b.periods[p].tenant == a.periods[p].tenant
    ensures b.periods[p].start == a.periods[p].start && b.periods[p].end == a.periods[p].end
  {
  }

  /** A date in a closed period is in no open one. */
  lemma ClosedDate(db: Db, t: Id, p: Id, d: int)
    requires Inv(db) && p in db.periods && HoldsDate(db.periods[p], t, d) && db.periods[p].status == Closed
    ensures HasPeriod(db, t, d) && DatedIn(db, t, d, Closed) && !DatedIn(db, t, d, Open)
  {
    hide Inv, PeriodsOk;
    InvPeriods(db);
    forall q | q in db.periods && HoldsDate(db.periods[q], t, d) ensures q == p {
      CoverUnique(db.periods, t, d, p, q);
    }
  }

  /** Once it is reopened, balanced lines on usable accounts are booked in it again, and no others. */
  lemma ReopenedTakesPosts(guarded: bool, db: Db, t: Id, p: Id, c: Command)
    requires Inv(db) && Step(guarded, db, OpenPeriod(t, p)).1.Ok?
    requires c.CreateJournal? && c.t == t && p in db.periods && db.periods[p].start <= c.date <= db.periods[p].end
    requires DocKey(t, c.docType, c.docId) !in db.locks && c.id !in db.journals
    ensures var reopened := Step(guarded, db, OpenPeriod(t, p)).0;
            Step(guarded, reopened, c).1.Ok? <==>
              Clean(c.entries) && DebitTotal(c.entries) == CreditTotal(c.entries) && AccountsFine(db, t, c.entries)
  {
    hide Inv, Step, CreditTotal, DebitTotal, Clean, AllActive, AllKnown, AllSupplied;
    OpenPeriodDoes(guarded, db, t, p);
    StepInv(guarded, db, OpenPeriod(t, p));
    var reopened := Step(guarded, db, OpenPeriod(t, p)).0;
    assert HoldsDate(reopened.periods[p], t, c.date);
    CreateJournalAnswers(guarded, reopened, c);
    SameAccounts(db, reopened, t, c.entries);
  }

  lemma SameAccounts(db: Db, v: Db, t: Id, entries: seq<Entry>)
    requires v.accounts == db.accounts
    ensures AccountsFine(v, t, entries) <==> AccountsFine(db, t, entries)
    ensures AllKnown(v, t, entries) <==> AllKnown(db, t, entries)
    ensures AllActive(v, entries) <==> AllActive(db, entries)
    ensures AllSupplied(v, entries) <==> AllSupplied(db, entries)
  {
  }

  // ----- Seeding -----

  predicate Lacking(periods: map<Id, Period>, t: Id, y: int, m: int) {
    forall p :: p in periods ==> !(periods[p].tenant == t && periods[p].year == y && periods[p].month == m)
  }

  /** The open period of month m: its own first day to the day before the next month's. */
  function MonthOf(t: Id, y: int, m: int): Period
    requires 1 <= m <= 12
  {
    Period(t, y, m, DayBefore(y, m) + 1, DayBefore(y, m + 1), Open)
  }

  /** These months are there: the ones that were, and each lacking one under its own new id. */
  ghost predicate Seeded(before: map<Id, Period>, after: map<Id, Period>, t: Id, y: int, months: nat, ids: nat -> Id)
    requires months <= 12
  {
    && (forall p :: p in before ==> p in after && after[p] == before[p])
    && (forall m :: 1 <= m <= months && Lacking(before, t, y, m) ==>
          ids(m) !in before && ids(m) in after && after[ids(m)] == MonthOf(t, y, m))
    && (forall p :: p in after && p !in before ==>
          exists m :: 1 <= m <= months && Lacking(before, t, y, m) && p == ids(m))
  }

  /** Some lacking month's id is in use, by an earlier period or an earlier month. */
  ghost predicate IdInUse(before: map<Id, Period>, t: Id, y: int, months: nat, ids: nat -> Id) {
    exists m :: 1 <= m <= months && Lacking(before, t, y, m)
      && (ids(m) in before || exists k :: 1 <= k < m && Lacking(before, t, y, k) && ids(k) == ids(m))
  }

  lemma OneMoreInUse(before: map<Id, Period>, t: Id, y: int, n: nat, ids: nat -> Id)
    requires 1 <= n
    ensures IdInUse(before, t, y, n, ids) <==>
            || IdInUse(before, t, y, n - 1, ids)
            || (Lacking(before, t, y, n)
                && (ids(n) in before || exists k :: 1 <= k < n && Lacking(before, t, y, k) && ids(k) == ids(n)))
  {
    hide Lacking;
  }

  /** After the months before n, month n is there exactly if it was, and its new id is in use
      exactly if an earlier period or month has it. */
  lemma NextMonth(before: map<Id, Period>, w: map<Id, Period>, t: Id, y: int, n: nat, ids: nat -> Id)
    requires 1 <= n <= 12 && Seeded(before, w, t, y, n - 1, ids)
    ensures Lacking(w, t, y, n) <==> Lacking(before, t, y, n)
    ensures ids(n) in w <==> ids(n) in before || exists k :: 1 <= k < n && Lacking(before, t, y, k) && ids(k) == ids(n)
  {
    hide DayBefore;
  }

  lemma SeedOne(before: map<Id, Period>, w: map<Id, Period>, t: Id, y: int, n: nat, ids: nat -> Id)
    requires 1 <= n <= 12 && Seeded(before, w, t, y, n - 1, ids)
    ensures !Lacking(before, t, y, n) ==> Seeded(before, w, t, y, n, ids)
    ensures Lacking(before, t, y, n) && ids(n) !in w ==> Seeded(before, w[ids(n) := MonthOf(t, y, n)], t, y, n, ids)
  {
    hide Lacking, MonthOf;
  }

  lemma HasMonthIs(db: Db, t: Id, y: int, m: int)
    ensures HasMonth(db, t, y, m) <==> !Lacking(db.periods, t, y, m)
  {
  }

  lemma {:induction false} SeedMonthsDo(db: Db, t: Id, y: int, months: nat, ids: nat -> Id)
    requires months <= 12
    ensures var r := SeedMonths(db, t, y, months, ids);
            if IdInUse(db.periods, t, y, months, ids) then r == Err(UniqueViolation)
            else
              && r.Ok? && r.value == db.(periods := r.value.periods)
              && Seeded(db.periods, r.value.periods, t, y, months, ids)
  {
    hide IdInUse, Seeded, Lacking, MonthOf, SeedMonths;
    if months == 0 {
      SeedNothing(db, t, y, ids);
    } else {
      SeedMonthsDo(db, t, y, months - 1, ids);
      OneMoreInUse(db.periods, t, y, months, ids);
      SeedUnrolled(db, t, y, months, ids);
      var before := SeedMonths(db, t, y, months - 1, ids);
      if before.Ok? {
        NextMonth(db.periods, before.value.periods, t, y, months, ids);
        SeedOne(db.periods, before.value.periods, t, y, months, ids);
      }
    }
  }

  lemma SeedNothing(db: Db, t: Id, y: int, ids: nat -> Id)
    ensures SeedMonths(db, t, y, 0, ids) == Ok(db)
    ensures !IdInUse(db.periods, t, y, 0, ids) && Seeded(db.periods, db.periods, t, y, 0, ids)
  {
  }

  lemma SeedUnrolled(db: Db, t: Id, y: int, m: nat, ids: nat -> Id)
    requires 1 <= m <= 12
    ensures var r := SeedMonths(db, t, y, m - 1, ids);
            SeedMonths(db, t, y, m, ids) ==
            if r.Err? || !Lacking(r.value.periods, t, y, m) then r
            else if ids(m) in r.value.periods then Err(UniqueViolation)
            else Ok(r.value.(periods := r.value.periods[ids(m) := MonthOf(t, y, m)]))
  {
    hide Lacking, DayBefore, Ordinal, DaysInMonth, HasMonth;
    MonthIs(y, m);
    var r := SeedMonths(db, t, y, m - 1, ids);
    if r.Ok? { HasMonthIs(r.value, t, y, m); }
  }

  /** seed_year, for the years 2000 to 2100: the months that the tenant lacks are added, open, from
      their own first day to the day before the next month's, and nothing else happens. */
  lemma SeedYearDoes(guarded: bool, db: Db, t: Id, y: int, ids: nat -> Id)
    requires Inv(db)
    ensures var (after, r) := Step(guarded, db, SeedYear(t, y, ids));
            if !(2000 <= y <= 2100) then (after, r) == (db, Err(InvalidYear))
            else if IdInUse(db.periods, t, y, 12, ids) then (after, r) == (db, Err(UniqueViolation))
            else
              && r == Ok(t) && after == db.(periods := after.periods)
              && Seeded(db.periods, after.periods, t, y, 12, ids)
  {
    hide Inv, Step, IdInUse, Seeded, SeedMonths;
    var c := SeedYear(t, y, ids);
    SeedMonthsDo(db, t, y, 12, ids);
    if Attempt(guarded, db, c).Ok? {
      QuietStep(guarded, db, c);
    } else {
      FailedStep(guarded, db, c);
    }
  }
}
