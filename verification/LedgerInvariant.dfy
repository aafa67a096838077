// What holds of the tables at every commit, and that every command keeps it.
// Inside a transaction it does not hold: between the flush and the deferred
// triggers the balances lag the lines, and a batch is validated but not posted.
module LedgerInvariant {
  import opened Prelude
  import opened Sums
  import opened Calendar
  import opened Ledger

  // ----- The invariant -----

  predicate MonthPeriod(p: Period) {
    && FIRST_YEAR <= p.year <= LAST_YEAR && 1 <= p.month <= 12
    && p.start == MonthStart(MonthIndex(p.year, p.month))
    && p.end == MonthStart(MonthIndex(p.year, p.month) + 1) - 1
  }

  predicate SameMonth(p: Period, q: Period) {
    p.tenant == q.tenant && p.year == q.year && p.month == q.month
  }

  ghost predicate PeriodsOk(periods: map<Id, Period>) {
    && (forall p :: p in periods ==> MonthPeriod(periods[p]))
    && (forall p, q :: p in periods && q in periods && SameMonth(periods[p], periods[q]) ==> p == q)
  }

  ghost predicate AccountsOk(accounts: map<Id, Account>) {
    && (forall a :: a in accounts ==> KnownKind(accounts[a].kind))
    && (forall a, b | a in accounts && b in accounts ::
          accounts[a].tenant == accounts[b].tenant && accounts[a].number == accounts[b].number ==> a == b)
  }

  predicate JournalOk(periods: map<Id, Period>, j: Journal) {
    j.period in periods && Covers(periods[j.period], j.tenant, j.date)
  }

  ghost predicate JournalsOk(journals: map<Id, Journal>, periods: map<Id, Period>) {
    forall j :: j in journals ==> JournalOk(periods, journals[j]) && journals[j].order < |journals|
  }

  predicate LineOk(journals: map<Id, Journal>, accounts: map<Id, Account>, l: Line) {
    && l.journal in journals && l.tenant == journals[l.journal].tenant
    && l.entry.account in accounts && accounts[l.entry.account].tenant == l.tenant
    && EntryCheck(l.entry)
  }

  ghost predicate LinesOk(lines: seq<Line>, journals: map<Id, Journal>, accounts: map<Id, Account>) {
    forall l :: l in lines ==> LineOk(journals, accounts, l)
  }

  ghost predicate BalancedOk(lines: seq<Line>) {
    forall j :: JournalNet(lines, j) == 0
  }

  function AtKey(journals: map<Id, Journal>, k: BalanceKey): Line -> bool {
    (l: Line) => BalanceKeyOf(journals, l) == k
  }

  /** The balances table is exactly the lines grouped by (tenant, period, account). */
  ghost predicate Projects(balances: map<BalanceKey, Totals>, journals: map<Id, Journal>, lines: seq<Line>) {
    forall k: BalanceKey ::
      && (k in balances <==> exists l :: l in lines && BalanceKeyOf(journals, l) == k)
      && (k in balances ==>
            balances[k] == Totals(Sum(lines, DebitIf(AtKey(journals, k))), Sum(lines, CreditIf(AtKey(journals, k)))))
  }

  /** Posting locks and journals correspond one to one on (tenant, doc_type, doc_id). */
  ghost predicate LocksOk(locks: map<DocKey, Id>, journals: map<Id, Journal>) {
    && (forall k :: k in locks ==> locks[k] in journals && DocOf(journals[locks[k]]) == k)
    && (forall j :: j in journals ==> DocOf(journals[j]) in locks && locks[DocOf(journals[j])] == j)
  }

  predicate LinkOk(journals: map<Id, Journal>, k: LinkKey, r: Id) {
    && k.original in journals && journals[k.original].tenant == k.tenant
    && r in journals && DocOf(journals[r]) == DocKey(k.tenant, REVERSAL, k.original)
  }

  ghost predicate LinksOk(links: map<LinkKey, Id>, journals: map<Id, Journal>) {
    forall k :: k in links ==> LinkOk(journals, k, links[k])
  }

  predicate Carries(batchOf: map<Id, Id>, j: Id, b: Id) {
    j in batchOf && batchOf[j] == b
  }

  /** A journal carries a batch only as that batch's own document. */
  ghost predicate BatchColumnOk(batchOf: map<Id, Id>, batches: map<Id, Batch>, journals: map<Id, Journal>) {
    forall j :: j in batchOf ==>
      && j in journals && batchOf[j] in batches
      && DocOf(journals[j]) == DocKey(batches[batchOf[j]].doc.tenant, BATCH, batchOf[j])
  }

  ghost predicate BatchesOk(batchOf: map<Id, Id>, batches: map<Id, Batch>) {
    && (forall b :: b in batches ==> (batches[b].status == Posted <==> exists j :: Carries(batchOf, j, b)))
    && (forall b :: b in batches ==> BalanceFault(batches[b].entries).None?)
    && (forall b, c :: b in batches && c in batches && batches[b].doc == batches[c].doc ==> b == c)
  }

  /** Everything but the balance projection: holds inside a transaction as well. */
  ghost predicate Sound(db: Db) {
    && PeriodsOk(db.periods)
    && AccountsOk(db.accounts)
    && JournalsOk(db.journals, db.periods)
    && LinesOk(db.lines, db.journals, db.accounts)
    && BalancedOk(db.lines)
    && LocksOk(db.locks, db.journals)
    && LinksOk(db.links, db.journals)
    && BatchColumnOk(db.batchOf, db.batches, db.journals)
    && BatchesOk(db.batchOf, db.batches)
  }

  ghost predicate Inv(db: Db) {
    Sound(db) && Projects(db.balances, db.journals, db.lines)
  }

  lemma EmptyInv()
    ensures Inv(EMPTY_DB)
  {
  }

  // ----- Periods -----

  lemma SameMonthIfCommonDate(x: Period, y: Period, d: int)
    requires MonthPeriod(x) && MonthPeriod(y)
    requires x.start <= d <= x.end && y.start <= d <= y.end
    ensures x.year == y.year && x.month == y.month
  {
    MonthOfDate(x.year, x.month, y.year, y.month, d);
  }

  /** At most one period of a tenant covers a date, so find_period_for_date has one answer. */
  lemma CoverUnique(periods: map<Id, Period>, t: Id, d: int, p: Id, q: Id)
    requires PeriodsOk(periods) && p in periods && q in periods
    requires Covers(periods[p], t, d) && Covers(periods[q], t, d)
    ensures p == q
  {
    assert MonthPeriod(periods[p]) && MonthPeriod(periods[q]);
    SameMonthIfCommonDate(periods[p], periods[q], d);
  }

  // ----- Sums over inserted rows -----

  lemma {:induction false} RowsNet(t: Id, j: Id, entries: seq<Entry>)
    ensures JournalNet(Rows(t, j, entries), j) == Sum(entries, EntryDebit()) - Sum(entries, EntryCredit())
  {
    if entries != [] {
      var n := |entries| - 1;
      RowsNet(t, j, entries[..n]);
      assert Rows(t, j, entries)[..n] == Rows(t, j, entries[..n]);
    }
  }

  /** Adding a balanced journal under a new id leaves every journal balanced. */
  lemma InsertBalanced(lines: seq<Line>, t: Id, id: Id, entries: seq<Entry>)
    requires BalancedOk(lines) && BalanceFault(entries).None?
    ensures BalancedOk(lines + Rows(t, id, entries))
  {
    forall j ensures JournalNet(lines + Rows(t, id, entries), j) == 0 {
      SumConcat(lines, Rows(t, id, entries), NetIf(OfJournal(j)));
      assert JournalNet(lines, j) == 0;
      if j == id {
        RowsNet(t, id, entries);
      } else {
        SumZero(Rows(t, id, entries), NetIf(OfJournal(j)));
      }
    }
  }

  // ----- The balance projection -----

  /** A journal row added under a new id does not move any existing line. */
  lemma ProjectsFrame(balances: map<BalanceKey, Totals>, journals: map<Id, Journal>, more: map<Id, Journal>,
                      lines: seq<Line>)
    requires Projects(balances, journals, lines)
    requires forall l :: l in lines ==> BalanceKeyOf(more, l) == BalanceKeyOf(journals, l)
    ensures Projects(balances, more, lines)
  {
    forall k: BalanceKey
      ensures Sum(lines, DebitIf(AtKey(more, k))) == Sum(lines, DebitIf(AtKey(journals, k)))
      ensures Sum(lines, CreditIf(AtKey(more, k))) == Sum(lines, CreditIf(AtKey(journals, k)))
    {
      SumCong(lines, DebitIf(AtKey(more, k)), DebitIf(AtKey(journals, k)));
      SumCong(lines, CreditIf(AtKey(more, k)), CreditIf(AtKey(journals, k)));
    }
  }

  lemma UpsertProjects(balances: map<BalanceKey, Totals>, journals: map<Id, Journal>, lines: seq<Line>, l: Line)
    requires Projects(balances, journals, lines)
    ensures Projects(Upsert(balances, BalanceKeyOf(journals, l), l.entry), journals, lines + [l])
  {
    var after := Upsert(balances, BalanceKeyOf(journals, l), l.entry);
    forall k: BalanceKey
      ensures k in after <==> exists x :: x in lines + [l] && BalanceKeyOf(journals, x) == k
      ensures k in after ==>
                after[k] == Totals(Sum(lines + [l], DebitIf(AtKey(journals, k))),
                                   Sum(lines + [l], CreditIf(AtKey(journals, k))))
    {
      SumSnoc(lines, l, DebitIf(AtKey(journals, k)));
      SumSnoc(lines, l, CreditIf(AtKey(journals, k)));
      if k in after {
        if k == BalanceKeyOf(journals, l) {
          assert l in lines + [l];
          if k !in balances {
            assert forall x :: x in lines ==> BalanceKeyOf(journals, x) != k;
            SumZero(lines, DebitIf(AtKey(journals, k)));
            SumZero(lines, CreditIf(AtKey(journals, k)));
          }
        } else {
          var x :| x in lines && BalanceKeyOf(journals, x) == k;
          assert x in lines + [l];
        }
      }
    }
  }

  /** The upserts of the commit turn the projection of the old lines into that of all lines. */
  lemma {:induction false} ApplyProjects(balances: map<BalanceKey, Totals>, journals: map<Id, Journal>,
                                         lines: seq<Line>, inserted: seq<Line>)
    requires Projects(balances, journals, lines)
    ensures Projects(ApplyBalances(balances, journals, inserted), journals, lines + inserted)
  {
    hide Projects, Upsert, BalanceKeyOf;
    if inserted == [] {
      assert lines + inserted == lines;
    } else {
      var n := |inserted| - 1;
      ApplyProjects(balances, journals, lines, inserted[..n]);
      UpsertProjects(ApplyBalances(balances, journals, inserted[..n]), journals, lines + inserted[..n], inserted[n]);
      assert lines + inserted == lines + inserted[..n] + [inserted[n]];
    }
  }

  // ----- Each kind of change keeps the tables sound -----

  /** What InsertJournal and the service have checked when a journal goes in. */
  ghost predicate Insertable(db: Db, id: Id, j: Journal, entries: seq<Entry>) {
    && id !in db.journals && DocOf(j) !in db.locks
    && InsertTriggerAccepts(db, j) && j.order == |db.journals|
    && BalanceFault(entries).None? && AccountFault(db, j.tenant, entries).None?
    && (forall e :: e in entries ==> EntryCheck(e))
  }

  lemma InsertLines(db: Db, id: Id, j: Journal, entries: seq<Entry>)
    requires LinesOk(db.lines, db.journals, db.accounts) && Insertable(db, id, j, entries)
    ensures LinesOk(db.lines + Rows(j.tenant, id, entries), db.journals[id := j], db.accounts)
  {
    var journals := db.journals[id := j];
    forall l | l in db.lines + Rows(j.tenant, id, entries) ensures LineOk(journals, db.accounts, l) {
      if l in db.lines {
        assert LineOk(db.journals, db.accounts, l);
      } else {
        assert l.entry in entries;
        assert OwnAccount(db, j.tenant, l.entry.account);
      }
    }
  }

  lemma InsertLocks(locks: map<DocKey, Id>, journals: map<Id, Journal>, id: Id, j: Journal)
    requires LocksOk(locks, journals) && id !in journals && DocOf(j) !in locks
    ensures LocksOk(locks[DocOf(j) := id], journals[id := j])
  {
  }

  lemma InsertLinks(links: map<LinkKey, Id>, journals: map<Id, Journal>, id: Id, j: Journal)
    requires LinksOk(links, journals) && id !in journals
    ensures LinksOk(links, journals[id := j])
  {
    forall k | k in links ensures LinkOk(journals[id := j], k, links[k]) {
      assert LinkOk(journals, k, links[k]);
    }
  }

  lemma InsertOrder(journals: map<Id, Journal>, periods: map<Id, Period>, id: Id, j: Journal)
    requires JournalsOk(journals, periods) && id !in journals
    requires JournalOk(periods, j) && j.order == |journals|
    ensures JournalsOk(journals[id := j], periods)
  {
    assert |journals[id := j]| == |journals| + 1;
  }

  lemma InsertSound(db: Db, id: Id, j: Journal, entries: seq<Entry>)
    requires Sound(db) && Insertable(db, id, j, entries)
    ensures Sound(WithJournal(db, id, j, entries))
  {
    hide PeriodsOk, AccountsOk, JournalsOk, LinesOk, BalancedOk;
    hide LocksOk, LinksOk, BatchColumnOk, BatchesOk, AccountFault, BalanceFault;
    InsertBalanced(db.lines, j.tenant, id, entries);
    InsertLines(db, id, j, entries);
    InsertLocks(db.locks, db.journals, id, j);
    InsertLinks(db.links, db.journals, id, j);
    InsertOrder(db.journals, db.periods, id, j);
    InsertColumn(db.batchOf, db.batches, db.journals, id, j);
  }

  lemma InsertColumn(batchOf: map<Id, Id>, batches: map<Id, Batch>, journals: map<Id, Journal>, id: Id, j: Journal)
    requires BatchColumnOk(batchOf, batches, journals) && id !in journals
    ensures BatchColumnOk(batchOf, batches, journals[id := j])
  {
  }

  lemma InsertProjects(db: Db, id: Id, j: Journal, rows: seq<Line>)
    requires Projects(db.balances, db.journals, db.lines)
    requires LinesOk(db.lines, db.journals, db.accounts) && id !in db.journals
    ensures Projects(ApplyBalances(db.balances, db.journals[id := j], rows), db.journals[id := j], db.lines + rows)
  {
    var journals := db.journals[id := j];
    forall l | l in db.lines ensures BalanceKeyOf(journals, l) == BalanceKeyOf(db.journals, l) {
      assert LineOk(db.journals, db.accounts, l);
    }
    ProjectsFrame(db.balances, db.journals, journals, db.lines);
    ApplyProjects(db.balances, journals, db.lines, rows);
  }

  /** COMMIT after an insertion: no deferred trigger fires and the projection is current again. */
  lemma PublishInsert(db: Db, work: Db, id: Id, j: Journal, rows: seq<Line>)
    requires Inv(db) && id !in db.journals
    requires Sound(work) && work.balances == db.balances
    requires work.lines == db.lines + rows && work.journals == db.journals[id := j]
    ensures db.lines <= work.lines
    ensures var r := Publish(work, work.lines[|db.lines|..]);
            r.Ok? && Inv(r.value) && r.value == work.(balances := r.value.balances)
  {
    assert work.lines[|db.lines|..] == rows;
    InsertProjects(db, id, j, rows);
    PublishSound(work, rows);
  }

  /** The deferred balance check accepts any inserted lines once every journal is balanced. */
  lemma PublishSound(work: Db, rows: seq<Line>)
    requires Sound(work)
    ensures var b := ApplyBalances(work.balances, work.journals, rows);
            Publish(work, rows) == Ok(work.(balances := b)) && Sound(work.(balances := b))
  {
    assert BalancedOk(work.lines);
    assert forall l :: l in rows ==> JournalNet(work.lines, l.journal) == 0;
  }

  /** COMMIT of a transaction that inserted no line. */
  lemma PublishNothing(db: Db, work: Db)
    requires Inv(db) && Sound(work)
    requires work.balances == db.balances && work.lines == db.lines && work.journals == db.journals
    ensures Publish(work, work.lines[|db.lines|..]) == Ok(work)
    ensures Inv(work)
  {
    hide Sound, Projects, JournalNet;
    assert work.lines[|db.lines|..] == [];
    assert work.(balances := work.balances) == work;
  }

  /** find_period_for_date and the insert trigger agree: what the service lets through,
      the trigger and the CHECK constraints accept. */
  lemma ServicePassesTriggers(db: Db, t: Id, date: int, source: string, docType: string, docId: string,
                              entries: seq<Entry>, id: Id)
    requires id !in db.journals
    ensures var r := PostManual(db, t, date, source, docType, docId, entries, id);
            r.Err? ==> r.error !in {JournalTrigger, CheckViolation, UniqueViolation}
  {
    if BalanceFault(entries).None? {
      forall e | e in entries ensures EntryCheck(e) {
        FirstFaultNone(entries, e);
      }
    }
  }

  lemma {:induction false} FirstFaultNone(entries: seq<Entry>, e: Entry)
    requires FirstFault(entries).None? && e in entries
    ensures EntryCheck(e)
  {
    var n := |entries| - 1;
    if e != entries[n] {
      FirstFaultNone(entries[..n], e);
    }
  }
}
