// What later requests can never change: posted rows are immutable, repeated posts
// and reversals answer the same, closed periods are frozen, seeded years stay whole.
module LedgerHistory {
  import opened Prelude
  import opened Sums
  import opened Calendar
  import opened Ledger
  import opened LedgerInvariant
  import opened LedgerRuns

  // ----- Immutability -----

  ghost predicate Submap<K, V>(m: map<K, V>, n: map<K, V>) {
    forall k :: k in m ==> k in n && n[k] == m[k]
  }

  ghost predicate PeriodsKept(m: map<Id, Period>, n: map<Id, Period>) {
    forall p :: p in m ==> p in n && n[p].(status := m[p].status) == m[p]
  }

  /** No row of journals, journal_lines, posting_locks, reversal_links or batch_id is
      ever changed or removed, and periods keep all but their status. */
  ghost predicate Grows(db: Db, after: Db) {
    && db.lines <= after.lines
    && Submap(db.journals, after.journals)
    && Submap(db.locks, after.locks)
    && Submap(db.links, after.links)
    && Submap(db.batchOf, after.batchOf)
    && PeriodsKept(db.periods, after.periods)
  }

  lemma GrowsTransitive(a: Db, b: Db, c: Db)
    requires Grows(a, b) && Grows(b, c)
    ensures Grows(a, c)
  {
  }

  lemma PostManualGrows(db: Db, t: Id, date: int, source: string, docType: string, docId: string, entries: seq<Entry>,
                        id: Id)
    requires PostManual(db, t, date, source, docType, docId, entries, id).Ok?
    ensures Grows(db, PostManual(db, t, date, source, docType, docId, entries, id).value.0)
  {
    PostManualOutcome(db, t, date, source, docType, docId, entries, id);
  }

  lemma PostBatchGrows(guarded: bool, db: Db, t: Id, b: Id, id: Id)
    requires Sound(db) && PostBatch(guarded, db, t, b, id).Ok?
    ensures Grows(db, PostBatch(guarded, db, t, b, id).value.0)
  {
    hide Sound, PostManual, PayloadFault;
    if db.batches[b].status != Posted {
      PostBatchOutcome(guarded, db, t, b, id);
      RestampSound(db, b);
      var v := Restamp(db, b, Validated);
      var row := v.batches[b];
      hide PostBatch;
      PostManualGrows(v, t, row.date, row.source, BATCH, b, row.entries, id);
      PostManualSound(v, t, row.date, row.source, BATCH, b, row.entries, id);
      var (work, j) := PostManual(v, t, row.date, row.source, BATCH, b, row.entries, id).value;
      ColumnKept(work, j, b, DocKey(t, BATCH, b));
    }
  }

  lemma ColumnKept(work: Db, j: Id, b: Id, doc: DocKey)
    requires Sound(work) && doc in work.locks && work.locks[doc] == j && doc.docId == b
    ensures Submap(work.batchOf, work.batchOf[j := b])
  {
    hide PeriodsOk, AccountsOk, JournalsOk, LinesOk, BalancedOk, LinksOk, BatchesOk;
  }

  lemma ReverseGrows(db: Db, t: Id, j: Id, id: Id)
    requires Sound(db) && Reverse(db, t, j, id).Ok?
    ensures Grows(db, Reverse(db, t, j, id).value.0)
  {
    hide Sound, PostManual, PeriodFor, Mirrored, EntriesOf;
    if LinkKey(t, j) !in db.links {
      PostManualGrows(db, t, db.journals[j].date, REVERSAL, REVERSAL, j, Mirrored(EntriesOf(db.lines, t, j), j), id);
      PostManualSound(db, t, db.journals[j].date, REVERSAL, REVERSAL, j, Mirrored(EntriesOf(db.lines, t, j), j), id);
    }
  }

  lemma AttemptGrows(guarded: bool, db: Db, c: Command)
    requires Sound(db) && Attempt(guarded, db, c).Ok?
    ensures Grows(db, Attempt(guarded, db, c).value.0)
  {
    hide Sound, Grows, PostManual, Reverse, PostBatch, SeedMonths, SetStatus, DraftBatch, ValidateBatch;
    match c
    case CreateJournal(t, date, source, docType, docId, entries, id) =>
      PostManualGrows(db, t, date, source, docType, docId, entries, id);
    case ReverseJournal(t, j, id) =>
      ReverseGrows(db, t, j, id);
    case SeedYear(t, y, ids) => SeedGrows(db, t, y, ids);
    case FinishBatch(t, b, id) => PostBatchGrows(guarded, db, t, b, id);
    case ClosePeriod(t, p) => StatusGrows(db, t, p, Closed);
    case OpenPeriod(t, p) => StatusGrows(db, t, p, Open);
    case CreateBatch(doc, source, date, entries, id) => DraftGrows(db, doc, source, date, entries, id);
    case CheckBatch(t, b) => CheckGrows(db, t, b);
    case CreateAccount(id, a) => SameRowsGrow(db, AddAccount(db, id, a).value);
    case UpdateAccount(t, id, kind, active, needs) =>
      SameRowsGrow(db, EditAccount(db, t, id, kind, active, needs).value);
  }

  /** Accounts and batches are no part of what only grows. */
  lemma SameRowsGrow(db: Db, work: Db)
    requires work == db.(accounts := work.accounts, batches := work.batches)
    ensures Grows(db, work)
  {
  }

  lemma StatusGrows(db: Db, t: Id, p: Id, status: PeriodStatus)
    requires SetStatus(db, t, p, status).Ok?
    ensures Grows(db, SetStatus(db, t, p, status).value)
  {
  }

  lemma DraftGrows(db: Db, doc: DocKey, source: string, date: int, entries: seq<Entry>, id: Id)
    requires DraftBatch(db, doc, source, date, entries, id).Ok?
    ensures Grows(db, DraftBatch(db, doc, source, date, entries, id).value.0)
  {
    hide PayloadFault, Grows;
    SameRowsGrow(db, DraftBatch(db, doc, source, date, entries, id).value.0);
  }

  lemma CheckGrows(db: Db, t: Id, b: Id)
    requires ValidateBatch(db, t, b).Ok?
    ensures Grows(db, ValidateBatch(db, t, b).value.0)
  {
    hide PayloadFault, Grows;
    SameRowsGrow(db, ValidateBatch(db, t, b).value.0);
  }

  lemma SeedGrows(db: Db, t: Id, y: int, ids: nat -> Id)
    requires Sound(db) && FIRST_YEAR <= y <= LAST_YEAR && SeedMonths(db, t, y, 12, ids).Ok?
    ensures Grows(db, SeedMonths(db, t, y, 12, ids).value)
  {
    hide AccountsOk, JournalsOk, LinesOk, BalancedOk, LocksOk, LinksOk, BatchesOk, BatchColumnOk, SeedMonths, PeriodsOk;
    SeedSound(db, t, y, 12, ids);
    SeedKeepsLedger(db, t, y, 12, ids);
  }

  lemma StepGrows(guarded: bool, db: Db, c: Command)
    requires Inv(db)
    ensures Grows(db, Step(guarded, db, c).0)
  {
    hide Sound, Projects, Attempt, Step;
    StepShape(guarded, db, c);
    if Attempt(guarded, db, c).Ok? {
      AttemptGrows(guarded, db, c);
    }
  }

  /** Posted rows survive every run unchanged. */
  lemma {:induction false} RunGrows(guarded: bool, db: Db, cs: seq<Command>)
    requires Inv(db)
    ensures Inv(Run(guarded, db, cs)) && Grows(db, Run(guarded, db, cs))
  {
    hide Inv, Step;
    if cs == [] {
      assert Grows(db, db);
    } else {
      var n := |cs| - 1;
      RunGrows(guarded, db, cs[..n]);
      var mid := Run(guarded, db, cs[..n]);
      StepGrows(guarded, mid, cs[n]);
      StepInv(guarded, mid, cs[n]);
      GrowsTransitive(db, mid, Step(guarded, mid, cs[n]).0);
    }
  }

  // ----- Repeated requests -----

  /** Posting the same document again, after any number of other requests and with any
      content, answers the first journal and changes nothing. */
  lemma RepeatPost(guarded: bool, db: Db, c: Command, cs: seq<Command>, d: Command)
    requires Inv(db) && c.CreateJournal? && Step(guarded, db, c).1.Ok?
    requires d.CreateJournal? && d.t == c.t && d.docType == c.docType && d.docId == c.docId
    ensures var later := Run(guarded, Step(guarded, db, c).0, cs);
            Step(guarded, later, d) == (later, Step(guarded, db, c).1)
  {
    var (first, r) := Step(guarded, db, c);
    var later := Run(guarded, first, cs);
    var doc := DocKey(c.t, c.docType, c.docId);
    hide Inv, Sound, PostManual, Step, Grows, Projects;
    assert doc in first.locks && first.locks[doc] == r.value && r.value in first.journals by {
      FirstPost(guarded, db, c);
    }
    StepInv(guarded, db, c);
    RunGrows(guarded, first, cs);
    assert doc in later.locks && later.locks[doc] == r.value && r.value in later.journals by {
      KeptLock(first, later, doc);
    }
    LockedPost(guarded, later, d);
  }

  lemma FirstPost(guarded: bool, db: Db, c: Command)
    requires Inv(db) && c.CreateJournal? && Step(guarded, db, c).1.Ok?
    ensures var (first, r) := Step(guarded, db, c);
            var doc := DocKey(c.t, c.docType, c.docId);
            doc in first.locks && first.locks[doc] == r.value && r.value in first.journals
  {
    hide Step, PostManual, Projects, PeriodsOk, AccountsOk;
    hide JournalsOk, LinesOk, BalancedOk, LinksOk, BatchColumnOk, BatchesOk;
    StepShape(guarded, db, c);
    PostManualSound(db, c.t, c.date, c.source, c.docType, c.docId, c.entries, c.id);
  }

  lemma KeptLock(a: Db, b: Db, doc: DocKey)
    requires Grows(a, b) && doc in a.locks && a.locks[doc] in a.journals
    ensures doc in b.locks && b.locks[doc] == a.locks[doc] && b.locks[doc] in b.journals
  {
  }

  lemma LockedPost(guarded: bool, db: Db, d: Command)
    requires Inv(db) && d.CreateJournal?
    requires DocKey(d.t, d.docType, d.docId) in db.locks && db.locks[DocKey(d.t, d.docType, d.docId)] in db.journals
    ensures Step(guarded, db, d) == (db, Ok(db.locks[DocKey(d.t, d.docType, d.docId)]))
  {
    hide Sound, Projects;
    assert Attempt(guarded, db, d) == Ok((db, db.locks[DocKey(d.t, d.docType, d.docId)]));
    PublishNothing(db, db);
  }

  /** Reversing the same journal again, after any other requests, answers the same
      reversal and changes nothing. */
  lemma RepeatReversal(guarded: bool, db: Db, t: Id, j: Id, id: Id, cs: seq<Command>, id': Id)
    requires Inv(db) && Step(guarded, db, ReverseJournal(t, j, id)).1.Ok?
    ensures var (first, r) := Step(guarded, db, ReverseJournal(t, j, id));
            var later := Run(guarded, first, cs);
            Step(guarded, later, ReverseJournal(t, j, id')) == (later, r)
  {
    hide Inv, Sound, Reverse, Step, Projects, PostManual;
    var (first, r) := Step(guarded, db, ReverseJournal(t, j, id));
    var later := Run(guarded, first, cs);
    FirstReversal(guarded, db, t, j, id);
    StepInv(guarded, db, ReverseJournal(t, j, id));
    RunGrows(guarded, first, cs);
    LinkedReversal(guarded, later, t, j, id');
  }

  lemma FirstReversal(guarded: bool, db: Db, t: Id, j: Id, id: Id)
    requires Inv(db) && Step(guarded, db, ReverseJournal(t, j, id)).1.Ok?
    ensures var (first, r) := Step(guarded, db, ReverseJournal(t, j, id));
            LinkKey(t, j) in first.links && first.links[LinkKey(t, j)] == r.value
  {
    hide Inv, Sound, Step, Projects, PostManual;
    StepShape(guarded, db, ReverseJournal(t, j, id));
  }

  lemma LinkedReversal(guarded: bool, db: Db, t: Id, j: Id, id: Id)
    requires Inv(db) && LinkKey(t, j) in db.links
    ensures Step(guarded, db, ReverseJournal(t, j, id)) == (db, Ok(db.links[LinkKey(t, j)]))
  {
    hide Projects, PostManual, PeriodsOk, AccountsOk, JournalsOk;
    hide LinesOk, BalancedOk, LocksOk, BatchColumnOk, BatchesOk;
    assert LinkOk(db.journals, LinkKey(t, j), db.links[LinkKey(t, j)]);
    PublishNothing(db, db);
  }

  // ----- Closed periods -----

  function LinesOfPeriod(journals: map<Id, Journal>, lines: seq<Line>, p: Id): seq<Line> {
    if lines == [] then []
    else
      var n := |lines| - 1;
      LinesOfPeriod(journals, lines[..n], p)
      + if PeriodOf(journals, lines[n].journal) == p then [lines[n]] else []
  }

  /** The lines of period p and every balance row of p are the same in both states. */
  ghost predicate SamePeriodBooks(db: Db, after: Db, p: Id) {
    && LinesOfPeriod(after.journals, after.lines, p) == LinesOfPeriod(db.journals, db.lines, p)
    && forall t, a ::
         var k := BalanceKey(t, p, a);
         (k in after.balances <==> k in db.balances) && (k in db.balances ==> after.balances[k] == db.balances[k])
  }

  lemma {:induction false} LinesElsewhere(m: map<Id, Journal>, n: map<Id, Journal>, lines: seq<Line>, more: seq<Line>,
                                          p: Id)
    requires forall l :: l in lines ==> PeriodOf(n, l.journal) == PeriodOf(m, l.journal)
    requires forall l :: l in more ==> PeriodOf(n, l.journal) != p
    ensures LinesOfPeriod(n, lines + more, p) == LinesOfPeriod(m, lines, p)
    decreases |lines| + |more|
  {
    if more != [] {
      var k := |more| - 1;
      LinesElsewhere(m, n, lines, more[..k], p);
      assert (lines + more)[..|lines + more| - 1] == lines + more[..k];
    } else {
      assert lines + more == lines;
      if lines != [] {
        LinesElsewhere(m, n, lines[..|lines| - 1], [], p);
        assert lines[..|lines| - 1] + [] == lines[..|lines| - 1];
      }
    }
  }

  /** A sum over more lines under a new weight is the old sum, if the weights agree on
      the old lines and the new lines weigh nothing. */
  lemma SumElsewhere(lines: seq<Line>, more: seq<Line>, f: Line -> int, g: Line -> int)
    requires forall l :: l in lines ==> f(l) == g(l)
    requires forall l :: l in more ==> f(l) == 0
    ensures Sum(lines + more, f) == Sum(lines, g)
  {
    SumConcat(lines, more, f);
    SumZero(more, f);
    SumCong(lines, f, g);
  }

  lemma BalanceElsewhere(balances: map<BalanceKey, Totals>, m: map<Id, Journal>, lines: seq<Line>,
                         after: map<BalanceKey, Totals>, n: map<Id, Journal>, more: seq<Line>, k: BalanceKey)
    requires Projects(balances, m, lines) && Projects(after, n, lines + more)
    requires forall l :: l in lines ==> BalanceKeyOf(n, l) == BalanceKeyOf(m, l)
    requires forall l :: l in more ==> BalanceKeyOf(n, l) != k
    ensures k in after <==> k in balances
    ensures k in balances ==> after[k] == balances[k]
  {
    hide BalanceKeyOf, Sum;
    SumElsewhere(lines, more, DebitIf(AtKey(n, k)), DebitIf(AtKey(m, k)));
    SumElsewhere(lines, more, CreditIf(AtKey(n, k)), CreditIf(AtKey(m, k)));
    if k in balances {
      var l :| l in lines && BalanceKeyOf(m, l) == k;
      assert l in lines + more;
    }
  }

  lemma ClosedBooks(db: Db, after: Db, id: Id, p: Id)
    requires Inv(db) && Inv(after) && Extends(db, after, id)
    requires p in db.periods && db.periods[p].status == Closed
    ensures SamePeriodBooks(db, after, p)
  {
    hide PeriodsOk, AccountsOk, BalancedOk, LocksOk, LinksOk;
    hide BatchColumnOk, BatchesOk, JournalsOk, Projects, LinesOfPeriod;
    var more := after.lines[|db.lines|..];
    assert after.lines == db.lines + more;
    forall l | l in db.lines ensures l.journal in db.journals {
      assert LineOk(db.journals, db.accounts, l);
    }
    hide LinesOk;
    LinesElsewhere(db.journals, after.journals, db.lines, more, p);
    forall t, a
      ensures var k := BalanceKey(t, p, a);
              (k in after.balances <==> k in db.balances) && (k in db.balances ==> after.balances[k] == db.balances[k])
    {
      BalanceElsewhere(db.balances, db.journals, db.lines, after.balances, after.journals, more, BalanceKey(t, p, a));
    }
  }

  predicate Reopens(c: Command, p: Id) {
    c.OpenPeriod? && c.period == p
  }

  lemma StepClosed(guarded: bool, db: Db, c: Command, p: Id)
    requires Inv(db) && p in db.periods && db.periods[p].status == Closed && !Reopens(c, p)
    ensures var after := Step(guarded, db, c).0;
            p in after.periods && after.periods[p].status == Closed && SamePeriodBooks(db, after, p)
  {
    hide Sound, Projects, Step, PostManual, Reverse, PostBatch, SeedMonths, SamePeriodBooks, Extends;
    StepShape(guarded, db, c);
    if Attempt(guarded, db, c).Err? {
      assert SamePeriodBooks(db, db, p) by { SameBooks(db, p); }
    } else {
      var work := Attempt(guarded, db, c).value.0;
      AttemptSound(guarded, db, c);
      StatusKept(guarded, db, c, p);
      var after := Step(guarded, db, c).0;
      assert Extends(db, after, NewJournal(c)) by { ExtendsAfter(db, work, after, NewJournal(c)); }
      ClosedBooks(db, after, NewJournal(c), p);
    }
  }

  lemma SameBooks(db: Db, p: Id)
    ensures SamePeriodBooks(db, db, p)
  {
  }

  lemma ExtendsAfter(db: Db, work: Db, after: Db, id: Id)
    requires Extends(db, work, id) && work.lines == after.lines && work.journals == after.journals
    ensures Extends(db, after, id)
  {
  }

  lemma StatusKept(guarded: bool, db: Db, c: Command, p: Id)
    requires Sound(db) && Attempt(guarded, db, c).Ok? && p in db.periods && !Reopens(c, p)
    ensures var work := Attempt(guarded, db, c).value.0;
            p in work.periods && (work.periods[p] == db.periods[p] || work.periods[p].status == Closed)
  {
    hide Sound, PostManual, PostBatch, SeedMonths, PayloadFault;
    match c
    case CreateJournal(t, date, source, docType, docId, entries, id) =>
      PostManualSound(db, t, date, source, docType, docId, entries, id);
    case ReverseJournal(t, j, id) =>
      if LinkKey(t, j) !in db.links {
        PostManualSound(db, t, db.journals[j].date, REVERSAL, REVERSAL, j, Mirrored(EntriesOf(db.lines, t, j), j), id);
      }
    case SeedYear(t, y, ids) => SeedPeriodsKept(db, t, y, ids);
    case FinishBatch(t, b, id) => PostBatchPeriods(guarded, db, t, b, id);
    case _ =>
  }

  lemma SeedPeriodsKept(db: Db, t: Id, y: int, ids: nat -> Id)
    requires Sound(db) && FIRST_YEAR <= y <= LAST_YEAR && SeedMonths(db, t, y, 12, ids).Ok?
    ensures Submap(db.periods, SeedMonths(db, t, y, 12, ids).value.periods)
  {
    hide PeriodsOk, AccountsOk, JournalsOk, LinesOk, BalancedOk, LocksOk, LinksOk, BatchesOk, BatchColumnOk, SeedMonths;
    SeedSound(db, t, y, 12, ids);
  }

  lemma PostBatchPeriods(guarded: bool, db: Db, t: Id, b: Id, id: Id)
    requires Sound(db) && PostBatch(guarded, db, t, b, id).Ok?
    ensures PostBatch(guarded, db, t, b, id).value.0.periods == db.periods
  {
    hide Sound, PostManual, PayloadFault;
    if db.batches[b].status != Posted {
      PostBatchOutcome(guarded, db, t, b, id);
      RestampSound(db, b);
      var row := db.batches[b];
      hide PostBatch;
      PostManualSound(Restamp(db, b, Validated), t, row.date, row.source, BATCH, b, row.entries, id);
    }
  }

  lemma BooksTransitive(a: Db, b: Db, c: Db, p: Id)
    requires SamePeriodBooks(a, b, p) && SamePeriodBooks(b, c, p)
    ensures SamePeriodBooks(a, c, p)
  {
    forall t, x
      ensures var k := BalanceKey(t, p, x);
              (k in c.balances <==> k in a.balances) && (k in a.balances ==> c.balances[k] == a.balances[k])
    {
      assert BalanceKey(t, p, x) in b.balances <==> BalanceKey(t, p, x) in a.balances;
      assert BalanceKey(t, p, x) in c.balances <==> BalanceKey(t, p, x) in b.balances;
    }
  }

  /** A closed period is frozen: over any run without a reopening of it, through posts,
      reversals and batches, its lines and every account total in it stay as they were. */
  lemma {:induction false} ClosedPeriodFrozen(guarded: bool, db: Db, cs: seq<Command>, p: Id)
    requires Inv(db) && p in db.periods && db.periods[p].status == Closed
    requires forall c :: c in cs ==> !Reopens(c, p)
    ensures var after := Run(guarded, db, cs);
            Inv(after) && p in after.periods && after.periods[p].status == Closed && SamePeriodBooks(db, after, p)
  {
    hide Inv, Step, SamePeriodBooks;
    if cs == [] {
      SameBooks(db, p);
    } else {
      var n := |cs| - 1;
      ClosedPeriodFrozen(guarded, db, cs[..n], p);
      var mid := Run(guarded, db, cs[..n]);
      StepInv(guarded, mid, cs[n]);
      StepClosed(guarded, mid, cs[n], p);
      BooksTransitive(db, mid, Step(guarded, mid, cs[n]).0, p);
    }
  }

  // ----- Seeded years -----

  ghost predicate YearSeeded(db: Db, t: Id, y: int) {
    forall m :: 1 <= m <= 12 ==> HasMonth(db, t, y, m)
  }

  lemma {:induction false} SeedFills(db: Db, t: Id, y: int, m: nat, ids: nat -> Id)
    requires m <= 12 && SeedMonths(db, t, y, m, ids).Ok?
    ensures forall i :: 1 <= i <= m ==> HasMonth(SeedMonths(db, t, y, m, ids).value, t, y, i)
  {
    if m > 0 {
      SeedFills(db, t, y, m - 1, ids);
      var before, after := SeedMonths(db, t, y, m - 1, ids).value, SeedMonths(db, t, y, m, ids).value;
      forall i | 1 <= i <= m ensures HasMonth(after, t, y, i) {
        if HasMonth(before, t, y, i) {
          var p :| p in before.periods && before.periods[p].tenant == t && before.periods[p].year == y
            && before.periods[p].month == i;
          assert p in after.periods;
        } else {
          assert ids(m) in after.periods;
        }
      }
    }
  }

  lemma {:induction false} SeedIdle(db: Db, t: Id, y: int, m: nat, ids: nat -> Id)
    requires m <= 12 && YearSeeded(db, t, y)
    ensures SeedMonths(db, t, y, m, ids) == Ok(db)
  {
    if m > 0 {
      SeedIdle(db, t, y, m - 1, ids);
    }
  }

  lemma SeedYearFills(guarded: bool, db: Db, t: Id, y: int, ids: nat -> Id)
    requires Inv(db) && Step(guarded, db, SeedYear(t, y, ids)).1.Ok?
    ensures FIRST_YEAR <= y <= LAST_YEAR && YearSeeded(Step(guarded, db, SeedYear(t, y, ids)).0, t, y)
  {
    hide Inv, Step, SeedMonths;
    StepShape(guarded, db, SeedYear(t, y, ids));
    SeedFills(db, t, y, 12, ids);
    var work, after := SeedMonths(db, t, y, 12, ids).value, Step(guarded, db, SeedYear(t, y, ids)).0;
    assert forall m :: HasMonth(work, t, y, m) ==> HasMonth(after, t, y, m);
  }

  lemma SeededStays(db: Db, after: Db, t: Id, y: int)
    requires PeriodsKept(db.periods, after.periods) && YearSeeded(db, t, y)
    ensures YearSeeded(after, t, y)
  {
    forall m | 1 <= m <= 12 ensures HasMonth(after, t, y, m) {
      assert HasMonth(db, t, y, m);
      var p :| p in db.periods && db.periods[p].tenant == t && db.periods[p].year == y && db.periods[p].month == m;
      assert p in after.periods;
    }
  }

  /** Once a year is seeded, seeding it again, after any run and with any ids, creates nothing. */
  lemma ReseedCreatesNothing(guarded: bool, db: Db, t: Id, y: int, ids: nat -> Id, cs: seq<Command>, ids': nat -> Id)
    requires Inv(db) && Step(guarded, db, SeedYear(t, y, ids)).1.Ok?
    ensures var later := Run(guarded, Step(guarded, db, SeedYear(t, y, ids)).0, cs);
            Step(guarded, later, SeedYear(t, y, ids')) == (later, Ok(t))
  {
    hide Inv, Sound, Projects, SeedMonths, YearSeeded;
    var first := Step(guarded, db, SeedYear(t, y, ids)).0;
    var later := Run(guarded, first, cs);
    SeedYearFills(guarded, db, t, y, ids);
    StepInv(guarded, db, SeedYear(t, y, ids));
    RunGrows(guarded, first, cs);
    SeededStays(first, later, t, y);
    SeedIdle(later, t, y, 12, ids');
    IdleCommits(later);
  }

  lemma IdleCommits(db: Db)
    requires Inv(db)
    ensures Publish(db, db.lines[|db.lines|..]) == Ok(db)
  {
    hide Sound, Projects;
    PublishNothing(db, db);
  }

  /** In any reachable ledger every date of a seeded year lies in exactly one period of
      the tenant, in the month it belongs to, and find_period_for_date returns that one. */
  lemma SeededYearCovered(db: Db, t: Id, y: int, d: int)
    requires PeriodsOk(db.periods) && YearSeeded(db, t, y)
    requires Ordinal(y, 1, 1) <= d < Ordinal(y + 1, 1, 1)
    ensures PeriodFor(db, t, d).Some?
    ensures forall p :: p in db.periods ==> (Covers(db.periods[p], t, d) <==> p == PeriodFor(db, t, d).value)
    ensures db.periods[PeriodFor(db, t, d).value].year == y
  {
    hide PeriodsOk, MonthStart, Ordinal;
    var m := MonthOfYear(y, d);
    assert HasMonth(db, t, y, m);
    var p :| p in db.periods && db.periods[p].tenant == t && db.periods[p].year == y && db.periods[p].month == m;
    assert MonthPeriod(db.periods[p]) by { EachMonth(db.periods, p); }
    assert Covers(db.periods[p], t, d);
    forall q | q in db.periods && Covers(db.periods[q], t, d) ensures q == p {
      CoverUnique(db.periods, t, d, p, q);
    }
  }

  lemma EachMonth(periods: map<Id, Period>, p: Id)
    requires PeriodsOk(periods) && p in periods
    ensures MonthPeriod(periods[p])
  {
  }

  lemma MonthOfYear(y: int, d: int) returns (m: int)
    requires Ordinal(y, 1, 1) <= d < Ordinal(y + 1, 1, 1)
    ensures 1 <= m <= 12 && MonthStart(MonthIndex(y, m)) <= d < MonthStart(MonthIndex(y, m) + 1)
  {
    hide MonthStart, Ordinal;
    MonthsAbut(y, 1);
    MonthsAbut(y + 1, 1);
    var k := MonthExists(MonthIndex(y, 1), MonthIndex(y + 1, 1), d);
    m := k - 12 * y + 1;
  }

  /** A year seeded once stays covered: after any later run, with other years seeded in any
      order and with repeats, each of its dates has one and the same period for its month. */
  lemma SeedYearCoversForever(guarded: bool, db: Db, t: Id, y: int, ids: nat -> Id, cs: seq<Command>, d: int)
    requires Inv(db) && Step(guarded, db, SeedYear(t, y, ids)).1.Ok?
    requires Ordinal(y, 1, 1) <= d < Ordinal(y + 1, 1, 1)
    ensures var later := Run(guarded, Step(guarded, db, SeedYear(t, y, ids)).0, cs);
            && PeriodFor(later, t, d).Some?
            && later.periods[PeriodFor(later, t, d).value].year == y
            && forall p ::
                 p in later.periods ==> (Covers(later.periods[p], t, d) <==> p == PeriodFor(later, t, d).value)
  {
    hide Sound, Projects, Step, YearSeeded, PeriodFor, Ordinal;
    var first := Step(guarded, db, SeedYear(t, y, ids)).0;
    var later := Run(guarded, first, cs);
    SeedYearFills(guarded, db, t, y, ids);
    StepInv(guarded, db, SeedYear(t, y, ids));
    RunGrows(guarded, first, cs);
    SeededStays(first, later, t, y);
    assert PeriodsOk(later.periods) by { SoundPeriods(later); }
    SeededYearCovered(later, t, y, d);
  }

  lemma SoundPeriods(db: Db)
    requires Sound(db)
    ensures PeriodsOk(db.periods)
  {
  }
}
