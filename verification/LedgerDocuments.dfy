// Reversals and posting batches as documents: when a reversal really mirrors its
// original, why its effect is nil, and what a posted batch carries.
module LedgerDocuments {
  import opened Prelude
  import opened Sums
  import opened Ledger
  import opened LedgerInvariant
  import opened LedgerRuns
  import opened Reports

  // ----- Entries of a journal -----

  lemma {:induction false} EntriesConcat(a: seq<Line>, b: seq<Line>, t: Id, j: Id)
    ensures EntriesOf(a + b, t, j) == EntriesOf(a, t, j) + EntriesOf(b, t, j)
  {
    if b == [] {
      assert a + b == a;
    } else {
      var n := |b| - 1;
      EntriesConcat(a, b[..n], t, j);
      assert (a + b)[..|a + b| - 1] == a + b[..n];
    }
  }

  lemma {:induction false} EntriesOfRows(t: Id, id: Id, entries: seq<Entry>, t': Id, j: Id)
    ensures EntriesOf(Rows(t, id, entries), t', j) == if t' == t && j == id then entries else []
  {
    if entries != [] {
      var n := |entries| - 1;
      EntriesOfRows(t, id, entries[..n], t', j);
      assert Rows(t, id, entries)[..n] == Rows(t, id, entries[..n]);
      assert entries == entries[..n] + [entries[n]];
    }
  }

  lemma {:induction false} NoEntries(lines: seq<Line>, t: Id, j: Id)
    requires forall l :: l in lines ==> l.journal != j
    ensures EntriesOf(lines, t, j) == []
  {
    if lines != [] {
      NoEntries(lines[..|lines| - 1], t, j);
    }
  }

  /** After an insertion the new journal has its entries and every other one keeps its own. */
  lemma EntriesAfterInsert(db: Db, id: Id, row: Journal, entries: seq<Entry>, t: Id, j: Id)
    requires LinesOk(db.lines, db.journals, db.accounts) && id !in db.journals
    ensures EntriesOf(WithJournal(db, id, row, entries).lines, t, j)
              == if j != id then EntriesOf(db.lines, t, j) else if t == row.tenant then entries else []
  {
    EntriesConcat(db.lines, Rows(row.tenant, id, entries), t, j);
    EntriesOfRows(row.tenant, id, entries, t, j);
    if j == id {
      forall l | l in db.lines ensures l.journal != id {
        assert LineOk(db.journals, db.accounts, l);
      }
      NoEntries(db.lines, t, id);
    }
  }

  /** A request adds no line to a journal that was there before. */
  lemma EntriesStay(db: Db, after: Db, id: Id, t: Id, j: Id)
    requires Extends(db, after, id) && j in db.journals
    ensures EntriesOf(after.lines, t, j) == EntriesOf(db.lines, t, j)
  {
    if after.lines != db.lines {
      var more := after.lines[|db.lines|..];
      assert after.lines == db.lines + more;
      EntriesConcat(db.lines, more, t, j);
      NoEntries(more, t, j);
    }
  }

  // ----- Genuine documents -----

  /** r is the mirror image of j: same tenant, date and period, debits and credits
      exchanged entry by entry, and it came later. */
  ghost predicate Mirrors(journals: map<Id, Journal>, lines: seq<Line>, j: Id, r: Id) {
    && j in journals && r in journals
    && journals[r].tenant == journals[j].tenant
    && journals[r].date == journals[j].date && journals[r].period == journals[j].period
    && journals[j].order < journals[r].order
    && EntriesOf(lines, journals[r].tenant, r) == Mirrored(EntriesOf(lines, journals[j].tenant, j), j)
  }

  ghost predicate LinksGenuine(links: map<LinkKey, Id>, journals: map<Id, Journal>, lines: seq<Line>) {
    forall k :: k in links ==> Mirrors(journals, lines, k.original, links[k])
  }

  ghost predicate ReversalsLinked(links: map<LinkKey, Id>, journals: map<Id, Journal>) {
    forall r :: r in journals && journals[r].docType == REVERSAL ==>
        LinkKey(journals[r].tenant, journals[r].docId) in links
  }

  predicate BatchJournal(batchOf: map<Id, Id>, batches: map<Id, Batch>, lines: seq<Line>, j: Id, row: Journal) {
    && row.docId in batches && Carries(batchOf, j, row.docId)
    && batches[row.docId].date == row.date
    && EntriesOf(lines, row.tenant, j) == batches[row.docId].entries
  }

  ghost predicate BatchesGenuine(batchOf: map<Id, Id>, batches: map<Id, Batch>, journals: map<Id, Journal>,
                                 lines: seq<Line>) {
    forall j :: j in journals && journals[j].docType == BATCH ==> BatchJournal(batchOf, batches, lines, j, journals[j])
  }

  ghost predicate Genuine(db: Db) {
    && LinksGenuine(db.links, db.journals, db.lines)
    && ReversalsLinked(db.links, db.journals)
    && BatchesGenuine(db.batchOf, db.batches, db.journals, db.lines)
  }

  /** Callers of the journal endpoint leave the two reserved document types alone. */
  predicate Disciplined(c: Command) {
    c.CreateJournal? ==> c.docType != REVERSAL && c.docType != BATCH
  }

  lemma InsertKeepsMirrors(db: Db, id: Id, row: Journal, entries: seq<Entry>)
    requires LinesOk(db.lines, db.journals, db.accounts) && id !in db.journals
    requires LinksGenuine(db.links, db.journals, db.lines)
    ensures var w := WithJournal(db, id, row, entries); LinksGenuine(db.links, w.journals, w.lines)
  {
    var w := WithJournal(db, id, row, entries);
    forall k | k in db.links ensures Mirrors(w.journals, w.lines, k.original, db.links[k]) {
      assert Mirrors(db.journals, db.lines, k.original, db.links[k]);
      EntriesAfterInsert(db, id, row, entries, db.journals[k.original].tenant, k.original);
      EntriesAfterInsert(db, id, row, entries, db.journals[db.links[k]].tenant, db.links[k]);
    }
  }

  lemma InsertKeepsBatches(db: Db, id: Id, row: Journal, entries: seq<Entry>)
    requires LinesOk(db.lines, db.journals, db.accounts) && id !in db.journals && row.docType != BATCH
    requires BatchesGenuine(db.batchOf, db.batches, db.journals, db.lines)
    ensures var w := WithJournal(db, id, row, entries); BatchesGenuine(db.batchOf, db.batches, w.journals, w.lines)
  {
    var w := WithJournal(db, id, row, entries);
    forall j | j in w.journals && w.journals[j].docType == BATCH
      ensures BatchJournal(db.batchOf, db.batches, w.lines, j, w.journals[j])
    {
      assert BatchJournal(db.batchOf, db.batches, db.lines, j, db.journals[j]);
      EntriesAfterInsert(db, id, row, entries, db.journals[j].tenant, j);
    }
  }

  lemma ManualGenuine(db: Db, t: Id, date: int, source: string, docType: string, docId: string, entries: seq<Entry>,
                      id: Id)
    requires LinesOk(db.lines, db.journals, db.accounts) && Genuine(db)
    requires docType != REVERSAL && docType != BATCH
    requires PostManual(db, t, date, source, docType, docId, entries, id).Ok?
    ensures Genuine(PostManual(db, t, date, source, docType, docId, entries, id).value.0)
  {
    PostManualOutcome(db, t, date, source, docType, docId, entries, id);
    hide PostManual, LinksGenuine, BatchesGenuine, LinesOk;
    if DocKey(t, docType, docId) !in db.locks {
      var row := Journal(t, date, PeriodFor(db, t, date).value, source, docType, docId, |db.journals|);
      InsertKeepsMirrors(db, id, row, entries);
      InsertKeepsBatches(db, id, row, entries);
    }
  }

  // ----- Reversal -----

  /** The working copy after reversing an unlinked journal whose document is not taken. */
  lemma FreshReversal(db: Db, t: Id, j: Id, id: Id)
    requires Sound(db) && Reverse(db, t, j, id).Ok?
    requires LinkKey(t, j) !in db.links && DocKey(t, REVERSAL, j) !in db.locks
    ensures var (work, r) := Reverse(db, t, j, id).value;
            var row := Journal(t, db.journals[j].date, db.journals[j].period, REVERSAL, REVERSAL, j, |db.journals|);
            var entries := Mirrored(EntriesOf(db.lines, t, j), j);
            && r == id && id !in db.journals && j in db.journals && db.journals[j].tenant == t
            && work == WithJournal(db, id, row, entries).(links := db.links[LinkKey(t, j) := id])
            && Mirrors(work.journals, work.lines, j, id)
  {
    hide AccountsOk, BalancedOk, LocksOk, LinksOk, BatchColumnOk, BatchesOk, PeriodsOk, LinesOk;
    hide PostManual, PeriodFor, BalanceFault, AccountFault, EntriesOf;
    var date, entries := db.journals[j].date, Mirrored(EntriesOf(db.lines, t, j), j);
    PostManualOutcome(db, t, date, REVERSAL, REVERSAL, j, entries, id);
    var p := PeriodFor(db, t, date).value;
    assert JournalOk(db.periods, db.journals[j]);
    CoverUnique(db.periods, t, date, p, db.journals[j].period);
    var row := Journal(t, date, p, REVERSAL, REVERSAL, j, |db.journals|);
    EntriesAfterInsert(db, id, row, entries, t, j);
    EntriesAfterInsert(db, id, row, entries, t, id);
  }

  lemma ReverseGenuine(db: Db, t: Id, j: Id, id: Id)
    requires Sound(db) && Genuine(db) && Reverse(db, t, j, id).Ok?
    ensures Genuine(Reverse(db, t, j, id).value.0)
  {
    hide Sound, PostManual, LinksGenuine, ReversalsLinked, BatchesGenuine;
    if LinkKey(t, j) !in db.links {
      UnlinkedDocumentFree(db, t, j);
      FreshReversalGenuine(db, t, j, id);
    }
  }

  lemma UnlinkedDocumentFree(db: Db, t: Id, j: Id)
    requires Sound(db) && ReversalsLinked(db.links, db.journals) && LinkKey(t, j) !in db.links
    ensures DocKey(t, REVERSAL, j) !in db.locks
  {
    hide Sound;
    if DocKey(t, REVERSAL, j) in db.locks {
      LockedJournal(db, DocKey(t, REVERSAL, j));
    }
  }

  lemma FreshReversalGenuine(db: Db, t: Id, j: Id, id: Id)
    requires Sound(db) && Genuine(db) && Reverse(db, t, j, id).Ok?
    requires LinkKey(t, j) !in db.links && DocKey(t, REVERSAL, j) !in db.locks
    ensures Genuine(Reverse(db, t, j, id).value.0)
  {
    hide Reverse, Sound, LinksGenuine, BatchesGenuine, Mirrors, LinesOk;
    FreshReversal(db, t, j, id);
    SoundLines(db);
    var row := Journal(t, db.journals[j].date, db.journals[j].period, REVERSAL, REVERSAL, j, |db.journals|);
    var entries := Mirrored(EntriesOf(db.lines, t, j), j);
    InsertKeepsMirrors(db, id, row, entries);
    InsertKeepsBatches(db, id, row, entries);
    AddGenuineLink(db.links, Reverse(db, t, j, id).value.0, LinkKey(t, j), id);
  }

  lemma AddGenuineLink(links: map<LinkKey, Id>, work: Db, k: LinkKey, r: Id)
    requires LinksGenuine(links, work.journals, work.lines) && Mirrors(work.journals, work.lines, k.original, r)
    ensures LinksGenuine(links[k := r], work.journals, work.lines)
  {
  }

  lemma SoundLines(db: Db)
    requires Sound(db)
    ensures LinesOk(db.lines, db.journals, db.accounts)
  {
  }

  lemma LockedJournal(db: Db, doc: DocKey)
    requires Sound(db) && doc in db.locks
    ensures db.locks[doc] in db.journals && DocOf(db.journals[db.locks[doc]]) == doc
  {
    hide PeriodsOk, AccountsOk, JournalsOk, LinesOk, BalancedOk, LinksOk, BatchColumnOk, BatchesOk;
  }

  /** A first reversal posts the mirror image of its original exactly when no journal
      has taken the document (REVERSAL, original id) before. */
  lemma ReversalMirrorsExactlyWhen(guarded: bool, db: Db, t: Id, j: Id, id: Id)
    requires Inv(db) && LinkKey(t, j) !in db.links
    requires Step(guarded, db, ReverseJournal(t, j, id)).1.Ok?
    ensures var (after, r) := Step(guarded, db, ReverseJournal(t, j, id));
            (r.value !in db.journals && Mirrors(after.journals, after.lines, j, r.value))
              <==> (DocKey(t, REVERSAL, j) !in db.locks)
  {
    hide Sound, Projects, Step, PostManual, Mirrors;
    StepShape(guarded, db, ReverseJournal(t, j, id));
    if DocKey(t, REVERSAL, j) in db.locks {
      LockedJournal(db, DocKey(t, REVERSAL, j));
      PostManualOutcome(db, t, db.journals[j].date, REVERSAL, REVERSAL, j, Mirrored(EntriesOf(db.lines, t, j), j), id);
    } else {
      FreshReversal(db, t, j, id);
    }
  }

  /** The failing family: any journal posted by hand under (REVERSAL, original id) is
      handed back as the reversal, and reversing then posts nothing at all. */
  lemma TakenReversalPostsNothing(guarded: bool, db: Db, t: Id, j: Id, id: Id)
    requires Inv(db) && LinkKey(t, j) !in db.links && DocKey(t, REVERSAL, j) in db.locks
    requires Step(guarded, db, ReverseJournal(t, j, id)).1.Ok?
    ensures var (after, r) := Step(guarded, db, ReverseJournal(t, j, id));
            && r == Ok(db.locks[DocKey(t, REVERSAL, j)])
            && after.lines == db.lines && after.journals == db.journals
  {
    hide Sound, Projects, Step, PostManual;
    StepShape(guarded, db, ReverseJournal(t, j, id));
    PostManualOutcome(db, t, db.journals[j].date, REVERSAL, REVERSAL, j, Mirrored(EntriesOf(db.lines, t, j), j), id);
  }

  /** Such a journal can be posted by hand, an empty one, into the original's open period; from
      then on reversing the original answers it and posts nothing. */
  lemma ReversalDocumentCanBeTaken(guarded: bool, db: Db, t: Id, j: Id, id: Id, id': Id)
    requires Inv(db) && j in db.journals && db.journals[j].tenant == t && id !in db.journals
    requires DocKey(t, REVERSAL, j) !in db.locks && LinkKey(t, j) !in db.links
    requires db.periods[db.journals[j].period].status == Open
    ensures var (taken, r) := Step(guarded, db, CreateJournal(t, db.journals[j].date, "MANUAL", REVERSAL, j, [], id));
            && r == Ok(id) && Inv(taken) && LinkKey(t, j) !in taken.links
            && DocKey(t, REVERSAL, j) in taken.locks
            && EntriesOf(taken.lines, t, id) == []
            && var (reversed, answer) := Step(guarded, taken, ReverseJournal(t, j, id'));
               answer == Ok(id) && reversed.lines == taken.lines && reversed.journals == taken.journals
  {
    hide Projects, Step, AccountsOk, BalancedOk, LocksOk, LinksOk, BatchColumnOk, BatchesOk, PeriodsOk, PostManual;
    var date := db.journals[j].date;
    OwnPeriod(db, t, j);
    var p := db.journals[j].period;
    EmptyPost(db, t, date, REVERSAL, j, id);
    StepShape(guarded, db, CreateJournal(t, date, "MANUAL", REVERSAL, j, [], id));
    EntriesAfterInsert(db, id, Journal(t, date, p, "MANUAL", REVERSAL, j, |db.journals|), [], t, id);
    var taken := Step(guarded, db, CreateJournal(t, date, "MANUAL", REVERSAL, j, [], id)).0;
    assert taken.journals[j] == db.journals[j] && taken.periods == db.periods;
    hide JournalsOk, LinesOk;
    TakenReversal(guarded, taken, t, j, id');
  }

  /** find_period_for_date finds a journal's own period again. */
  lemma OwnPeriod(db: Db, t: Id, j: Id)
    requires PeriodsOk(db.periods) && JournalsOk(db.journals, db.periods) && j in db.journals
             && db.journals[j].tenant == t
    ensures db.journals[j].period in db.periods && PeriodFor(db, t, db.journals[j].date) == Some(db.journals[j].period)
  {
    hide PeriodsOk;
    assert JournalOk(db.periods, db.journals[j]);
    CoverUnique(db.periods, t, db.journals[j].date, db.journals[j].period, PeriodFor(db, t, db.journals[j].date).value);
  }

  /** An empty journal passes every check of a post into an open period. */
  lemma EmptyPost(db: Db, t: Id, date: int, docType: string, docId: string, id: Id)
    requires id !in db.journals && DocKey(t, docType, docId) !in db.locks
    requires PeriodFor(db, t, date).Some? && db.periods[PeriodFor(db, t, date).value].status == Open
    ensures var row := Journal(t, date, PeriodFor(db, t, date).value, "MANUAL", docType, docId, |db.journals|);
            PostManual(db, t, date, "MANUAL", docType, docId, [], id) == Ok((WithJournal(db, id, row, []), id))
  {
  }

  lemma TakenReversal(guarded: bool, db: Db, t: Id, j: Id, id: Id)
    requires Inv(db) && j in db.journals && db.journals[j].tenant == t && LinkKey(t, j) !in db.links
    requires DocKey(t, REVERSAL, j) in db.locks && db.journals[j].period in db.periods
    requires db.periods[db.journals[j].period].status == Open
    ensures var (after, r) := Step(guarded, db, ReverseJournal(t, j, id));
            r == Ok(db.locks[DocKey(t, REVERSAL, j)]) && after.lines == db.lines && after.journals == db.journals
  {
    hide Projects, Step, Sound, Reverse, PostManual;
    StepShape(guarded, db, ReverseJournal(t, j, id));
    TakenReversalPasses(db, t, j, id);
    TakenReversalPostsNothing(guarded, db, t, j, id);
  }

  lemma TakenReversalPasses(db: Db, t: Id, j: Id, id: Id)
    requires Sound(db) && j in db.journals && db.journals[j].tenant == t && LinkKey(t, j) !in db.links
    requires DocKey(t, REVERSAL, j) in db.locks && db.journals[j].period in db.periods
    requires db.periods[db.journals[j].period].status == Open
    ensures Reverse(db, t, j, id).Ok?
  {
    hide Sound, PeriodsOk, JournalsOk, PeriodFor, BalanceFault, AccountFault, InsertJournal, EntriesOf;
    LockedJournal(db, DocKey(t, REVERSAL, j));
    SoundPeriodsJournals(db);
    OwnPeriod(db, t, j);
  }

  lemma SoundPeriodsJournals(db: Db)
    requires Sound(db)
    ensures PeriodsOk(db.periods) && JournalsOk(db.journals, db.periods)
  {
    hide PeriodsOk, JournalsOk;
  }

  // ----- Cancellation -----

  /** What one entry adds to an account, or to one department of it. */
  function Slice(a: Id, dept: Option<Option<string>>): Entry -> int {
    (e: Entry) => if e.account == a && (dept.Some? ==> e.dims.department == dept.value) then e.debit - e.credit else 0
  }

  /** The line is selected by the report and not of an excluded journal. */
  function NetWithout(db: Db, f: Filter, a: Id, dept: Option<Option<string>>, out: set<Id>): Line -> int {
    (l: Line) => if IsSelected(db, f, l) && l.journal !in out then Slice(a, dept)(l.entry) else 0
  }

  function OfEntry(t: Id, j: Id, g: Entry -> int): Line -> int {
    (l: Line) => if l.tenant == t && l.journal == j then g(l.entry) else 0
  }

  lemma {:induction false} EntriesSum(lines: seq<Line>, t: Id, j: Id, g: Entry -> int)
    ensures Sum(lines, OfEntry(t, j, g)) == Sum(EntriesOf(lines, t, j), g)
  {
    if lines != [] {
      var n := |lines| - 1;
      EntriesSum(lines[..n], t, j, g);
      if lines[n].tenant == t && lines[n].journal == j {
        SumSnoc(EntriesOf(lines[..n], t, j), lines[n].entry, g);
      } else {
        assert EntriesOf(lines[..n], t, j) + [] == EntriesOf(lines[..n], t, j);
      }
    }
  }

  lemma {:induction false} MirrorSum(entries: seq<Entry>, j: Id, a: Id, dept: Option<Option<string>>)
    ensures Sum(Mirrored(entries, j), Slice(a, dept)) == -Sum(entries, Slice(a, dept))
  {
    if entries != [] {
      var n := |entries| - 1;
      MirrorSum(entries[..n], j, a, dept);
      assert Mirrored(entries, j)[..n] == Mirrored(entries[..n], j);
    }
  }

  lemma PairCancels(journals: map<Id, Journal>, lines: seq<Line>, j: Id, r: Id, a: Id, dept: Option<Option<string>>)
    requires Mirrors(journals, lines, j, r)
    ensures var t := journals[j].tenant;
            Sum(lines, OfEntry(t, j, Slice(a, dept))) + Sum(lines, OfEntry(t, r, Slice(a, dept))) == 0
  {
    var t := journals[j].tenant;
    EntriesSum(lines, t, j, Slice(a, dept));
    EntriesSum(lines, t, r, Slice(a, dept));
    MirrorSum(EntriesOf(lines, t, j), j, a, dept);
  }

  /** Taking one more journal out of a report removes just what its lines add. */
  lemma Excluding(db: Db, f: Filter, a: Id, dept: Option<Option<string>>, out: set<Id>, j: Id)
    requires LinesOk(db.lines, db.journals, db.accounts) && j in db.journals && j !in out
    ensures Sum(db.lines, NetWithout(db, f, a, dept, out))
              == Sum(db.lines, NetWithout(db, f, a, dept, out + {j}))
               + if Matches(f, db.journals[j]) then Sum(db.lines, OfEntry(db.journals[j].tenant, j, Slice(a, dept)))
                 else 0
  {
    var c := if Matches(f, db.journals[j]) then 1 else 0;
    var before, after := NetWithout(db, f, a, dept, out), NetWithout(db, f, a, dept, out + {j});
    var own := OfEntry(db.journals[j].tenant, j, Slice(a, dept));
    forall l | l in db.lines ensures before(l) == after(l) + c * own(l) {
      assert LineOk(db.journals, db.accounts, l);
      hide Slice, Matches;
      if l.journal == j {
        assert after(l) == 0;
        assert IsSelected(db, f, l) == Matches(f, db.journals[j]);
      } else {
        assert own(l) == 0;
      }
    }
    SumLinear(db.lines, before, after, own, c);
  }

  /** A journal and its reversal cancel: the net of every account, and of every department
      of it, under every period and as-of filter is what it would be without both. */
  lemma ReversalCancels(db: Db, f: Filter, k: LinkKey, a: Id, dept: Option<Option<string>>)
    requires LinesOk(db.lines, db.journals, db.accounts) && LinksGenuine(db.links, db.journals, db.lines)
             && k in db.links
    ensures Sum(db.lines, NetWithout(db, f, a, dept, {}))
              == Sum(db.lines, NetWithout(db, f, a, dept, {} + {k.original} + {db.links[k]}))
  {
    var j, r := k.original, db.links[k];
    assert Mirrors(db.journals, db.lines, j, r);
    hide LinesOk, LinksGenuine, NetWithout, OfEntry;
    Excluding(db, f, a, dept, {}, j);
    Excluding(db, f, a, dept, {} + {j}, r);
    PairCancels(db.journals, db.lines, j, r, a, dept);
  }

  // ----- Batches -----

  lemma UnpostedDocumentFree(db: Db, b: Id)
    requires Sound(db) && Genuine(db) && b in db.batches && db.batches[b].status != Posted
    ensures DocKey(db.batches[b].doc.tenant, BATCH, b) !in db.locks
  {
    hide PeriodsOk, AccountsOk, JournalsOk, LinesOk, BalancedOk;
    hide LocksOk, LinksOk, BatchColumnOk, LinksGenuine, ReversalsLinked;
    var doc := DocKey(db.batches[b].doc.tenant, BATCH, b);
    if doc in db.locks {
      LockedJournal(db, doc);
    }
  }

  /** The working copy after posting a batch whose document is free. */
  lemma FreshBatchPost(guarded: bool, db: Db, t: Id, b: Id, id: Id)
    requires Sound(db) && PostBatch(guarded, db, t, b, id).Ok?
    requires db.batches[b].status != Posted && DocKey(t, BATCH, b) !in db.locks
    ensures PeriodFor(db, t, db.batches[b].date).Some? && id !in db.journals && OwnBatch(db, t, b)
    ensures var row := Journal(t, db.batches[b].date, PeriodFor(db, t, db.batches[b].date).value,
                               db.batches[b].source, BATCH, b, |db.journals|);
            var w := WithJournal(Restamp(db, b, Validated), id, row, db.batches[b].entries);
            PostBatch(guarded, db, t, b, id).value == (Restamp(w, b, Posted).(batchOf := w.batchOf[id := b]), id)
  {
    PostBatchOutcome(guarded, db, t, b, id);
    assert PeriodsOk(db.periods);
    hide PostBatch, Sound, PayloadFault, PeriodsOk;
    var v, row := Restamp(db, b, Validated), db.batches[b];
    PostManualOutcome(v, t, row.date, row.source, BATCH, b, row.entries, id);
    SamePeriods(db, v, t, row.date);
  }

  lemma SamePeriods(db: Db, v: Db, t: Id, d: int)
    requires v.periods == db.periods && PeriodsOk(db.periods)
    ensures PeriodFor(v, t, d) == PeriodFor(db, t, d)
  {
    hide PeriodsOk;
    if PeriodFor(db, t, d).Some? {
      CoverUnique(db.periods, t, d, PeriodFor(db, t, d).value, PeriodFor(v, t, d).value);
    }
  }

  lemma PostBatchGenuine(guarded: bool, db: Db, t: Id, b: Id, id: Id)
    requires Sound(db) && Genuine(db) && PostBatch(guarded, db, t, b, id).Ok?
    ensures Genuine(PostBatch(guarded, db, t, b, id).value.0)
  {
    hide Sound, Genuine, PayloadFault, PostManual, ValidateBatch;
    if db.batches[b].status != Posted {
      UnpostedDocumentFree(db, b);
      FreshPostGenuine(guarded, db, t, b, id);
    }
  }

  lemma FreshPostGenuine(guarded: bool, db: Db, t: Id, b: Id, id: Id)
    requires Sound(db) && Genuine(db) && PostBatch(guarded, db, t, b, id).Ok?
    requires db.batches[b].status != Posted && DocKey(t, BATCH, b) !in db.locks
    ensures Genuine(PostBatch(guarded, db, t, b, id).value.0)
  {
    hide PostBatch, Sound, PeriodFor, LinesOk, LinksGenuine, BatchesGenuine, ReversalsLinked;
    FreshBatchPost(guarded, db, t, b, id);
    SoundLines(db);
    RestampGenuine(db, b, Validated);
    var v, batch := Restamp(db, b, Validated), db.batches[b];
    var row := Journal(t, batch.date, PeriodFor(db, t, batch.date).value, batch.source, BATCH, b, |db.journals|);
    InsertKeepsMirrors(v, id, row, batch.entries);
    InsertKeepsLinked(v, id, row);
    PostedBatchGenuine(v, id, row, b);
  }

  lemma InsertKeepsLinked(db: Db, id: Id, row: Journal)
    requires ReversalsLinked(db.links, db.journals) && id !in db.journals && row.docType != REVERSAL
    ensures ReversalsLinked(db.links, db.journals[id := row])
  {
  }

  lemma PostedBatchGenuine(db: Db, id: Id, row: Journal, b: Id)
    requires LinesOk(db.lines, db.journals, db.accounts) && id !in db.journals
    requires b in db.batches && row.docType == BATCH && row.docId == b && row.date == db.batches[b].date
    requires BatchesGenuine(db.batchOf, db.batches, db.journals, db.lines)
    ensures var w := WithJournal(db, id, row, db.batches[b].entries);
            BatchesGenuine(db.batchOf[id := b], Restamp(w, b, Posted).batches, w.journals, w.lines)
  {
    var w := WithJournal(db, id, row, db.batches[b].entries);
    var column, batches := db.batchOf[id := b], Restamp(w, b, Posted).batches;
    forall j | j in w.journals && w.journals[j].docType == BATCH
      ensures BatchJournal(column, batches, w.lines, j, w.journals[j])
    {
      EntriesAfterInsert(db, id, row, db.batches[b].entries, w.journals[j].tenant, j);
      if j != id {
        assert BatchJournal(db.batchOf, db.batches, db.lines, j, db.journals[j]);
      }
    }
  }

  lemma RestampGenuine(db: Db, b: Id, status: BatchStatus)
    requires b in db.batches && Genuine(db)
    ensures Genuine(Restamp(db, b, status))
  {
    var batches := Restamp(db, b, status).batches;
    forall j | j in db.journals && db.journals[j].docType == BATCH
      ensures BatchJournal(db.batchOf, batches, db.lines, j, db.journals[j])
    {
      assert BatchJournal(db.batchOf, db.batches, db.lines, j, db.journals[j]);
    }
  }

  lemma DraftGenuine(db: Db, doc: DocKey, source: string, date: int, entries: seq<Entry>, id: Id)
    requires Genuine(db) && DraftBatch(db, doc, source, date, entries, id).Ok?
    ensures Genuine(DraftBatch(db, doc, source, date, entries, id).value.0)
  {
    hide PayloadFault, LinksGenuine, ReversalsLinked;
    var row := Batch(doc, source, Draft, date, entries, 1);
    forall j | j in db.journals && db.journals[j].docType == BATCH
      ensures BatchJournal(db.batchOf, db.batches[id := row], db.lines, j, db.journals[j])
    {
      assert BatchJournal(db.batchOf, db.batches, db.lines, j, db.journals[j]);
    }
  }

  lemma CheckGenuine(db: Db, t: Id, b: Id)
    requires Genuine(db) && ValidateBatch(db, t, b).Ok?
    ensures Genuine(ValidateBatch(db, t, b).value.0)
  {
    hide PayloadFault, Genuine;
    if db.batches[b].status != Posted {
      RestampGenuine(db, b, Validated);
    }
  }

  lemma StatusGenuine(db: Db, t: Id, p: Id, status: PeriodStatus)
    requires Genuine(db) && SetStatus(db, t, p, status).Ok?
    ensures Genuine(SetStatus(db, t, p, status).value)
  {
    hide Genuine;
    SameDocumentsGenuine(db, SetStatus(db, t, p, status).value);
  }

  /** Genuineness says nothing of accounts, periods, locks and balances. */
  lemma SameDocumentsGenuine(db: Db, work: Db)
    requires Genuine(db)
    requires work.journals == db.journals && work.lines == db.lines && work.links == db.links
    requires work.batchOf == db.batchOf && work.batches == db.batches
    ensures Genuine(work)
  {
    hide LinksGenuine, ReversalsLinked, BatchesGenuine;
  }

  lemma AttemptGenuine(guarded: bool, db: Db, c: Command)
    requires Sound(db) && Genuine(db) && Disciplined(c) && Attempt(guarded, db, c).Ok?
    ensures Genuine(Attempt(guarded, db, c).value.0)
  {
    hide Sound, Genuine, PostManual, Reverse, PostBatch, SeedMonths, DraftBatch, ValidateBatch, SetStatus;
    SoundLines(db);
    match c
    case CreateJournal(t, date, source, docType, docId, entries, id) =>
      ManualGenuine(db, t, date, source, docType, docId, entries, id);
    case ReverseJournal(t, j, id) => ReverseGenuine(db, t, j, id);
    case CreateBatch(doc, source, date, entries, id) =>
      DraftGenuine(db, doc, source, date, entries, id);
    case CheckBatch(t, b) => CheckGenuine(db, t, b);
    case FinishBatch(t, b, id) => PostBatchGenuine(guarded, db, t, b, id);
    case SeedYear(t, y, ids) =>
      SeedKeepsLedger(db, t, y, 12, ids);
      SameDocumentsGenuine(db, SeedMonths(db, t, y, 12, ids).value);
    case ClosePeriod(t, p) => StatusGenuine(db, t, p, Closed);
    case OpenPeriod(t, p) => StatusGenuine(db, t, p, Open);
    case CreateAccount(id, a) => SameDocumentsGenuine(db, AddAccount(db, id, a).value);
    case UpdateAccount(t, id, kind, active, needs) =>
      SameDocumentsGenuine(db, EditAccount(db, t, id, kind, active, needs).value);
  }

  lemma StepGenuine(guarded: bool, db: Db, c: Command)
    requires Inv(db) && Genuine(db) && Disciplined(c)
    ensures Genuine(Step(guarded, db, c).0)
  {
    hide Sound, Projects, Attempt, Step, LinksGenuine, ReversalsLinked, BatchesGenuine;
    StepShape(guarded, db, c);
    if Attempt(guarded, db, c).Ok? {
      AttemptGenuine(guarded, db, c);
    }
  }

  // ----- Disciplined runs -----

  ghost predicate Reachable(db: Db) {
    exists guarded, cs :: (forall c :: c in cs ==> Disciplined(c)) && db == Run(guarded, EMPTY_DB, cs)
  }

  lemma {:induction false} RunGenuine(guarded: bool, cs: seq<Command>)
    requires forall c :: c in cs ==> Disciplined(c)
    ensures var db := Run(guarded, EMPTY_DB, cs); Inv(db) && Genuine(db)
  {
    hide Inv, Genuine, Step;
    if cs == [] {
      EmptyInv();
      EmptyGenuine();
    } else {
      var n := |cs| - 1;
      RunGenuine(guarded, cs[..n]);
      var mid := Run(guarded, EMPTY_DB, cs[..n]);
      StepInv(guarded, mid, cs[n]);
      StepGenuine(guarded, mid, cs[n]);
    }
  }

  lemma EmptyGenuine()
    ensures Genuine(EMPTY_DB)
  {
  }

  /** In every ledger reached by disciplined requests, each journal and its reversal cancel
      in every report, for every account and department. */
  lemma ReversalsCancel(db: Db, f: Filter, k: LinkKey, a: Id, dept: Option<Option<string>>)
    requires Reachable(db) && k in db.links
    ensures Sum(db.lines, NetWithout(db, f, a, dept, {}))
              == Sum(db.lines, NetWithout(db, f, a, dept, {} + {k.original} + {db.links[k]}))
  {
    var guarded, cs :| (forall c :: c in cs ==> Disciplined(c)) && db == Run(guarded, EMPTY_DB, cs);
    RunGenuine(guarded, cs);
    SoundLines(db);
    hide Sound, Projects, LinksGenuine, ReversalsLinked, BatchesGenuine;
    ReversalCancels(db, f, k, a, dept);
  }

  /** A journal is the reversal of at most one journal, in any reachable ledger. */
  lemma LinksInjective(db: Db, k: LinkKey, k': LinkKey)
    requires Inv(db) && k in db.links && k' in db.links && db.links[k] == db.links[k']
    ensures k == k'
  {
    hide PeriodsOk, AccountsOk, JournalsOk, LinesOk, BalancedOk, LocksOk, BatchColumnOk, BatchesOk, Projects;
    assert LinkOk(db.journals, k, db.links[k]) && LinkOk(db.journals, k', db.links[k']);
  }

  /** Each journal of the chain is linked to the next as its reversal. */
  ghost predicate Linked(links: map<LinkKey, Id>, t: Id, chain: seq<Id>) {
    forall i :: 0 <= i < |chain| - 1 ==> LinkKey(t, chain[i]) in links && links[LinkKey(t, chain[i])] == chain[i + 1]
  }

  lemma LinkedFrom(links: map<LinkKey, Id>, t: Id, j: Id, rest: seq<Id>)
    requires rest != [] && Linked(links, t, rest) && LinkKey(t, j) in links && links[LinkKey(t, j)] == rest[0]
    ensures Linked(links, t, [j] + rest)
  {
    var chain := [j] + rest;
    forall i | 0 <= i < |chain| - 1
      ensures LinkKey(t, chain[i]) in links && links[LinkKey(t, chain[i])] == chain[i + 1]
    {
      if i > 0 { assert chain[i] == rest[i - 1]; }
    }
  }

  /** The journals met by following reversal links from j: the walk ends, and every
      step goes to a later journal of the same tenant, so no journal comes twice. */
  ghost function Chain(db: Db, j: Id): (chain: seq<Id>)
    requires JournalsOk(db.journals, db.periods) && LinksGenuine(db.links, db.journals, db.lines)
    requires j in db.journals
    ensures chain != [] && chain[0] == j
    ensures forall i ::
              0 <= i < |chain| ==> chain[i] in db.journals && db.journals[chain[i]].tenant == db.journals[j].tenant
    ensures forall i, k :: 0 <= i < k < |chain| ==> db.journals[chain[i]].order < db.journals[chain[k]].order
    ensures Linked(db.links, db.journals[j].tenant, chain)
    ensures LinkKey(db.journals[j].tenant, chain[|chain| - 1]) !in db.links
    ensures |chain| <= |db.journals| - db.journals[j].order
    decreases |db.journals| - db.journals[j].order
  {
    var k := LinkKey(db.journals[j].tenant, j);
    if k in db.links then
      assert Mirrors(db.journals, db.lines, j, db.links[k]);
      var rest := Chain(db, db.links[k]);
      assert Linked(db.links, k.tenant, [j] + rest) by { LinkedFrom(db.links, k.tenant, j, rest); }
      [j] + rest
    else [j]
  }
}
