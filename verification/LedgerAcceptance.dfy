// Exactly which posts, reversals and batches the service accepts, said without its checks.
module LedgerAcceptance {
  import opened Prelude
  import opened Sums
  import opened Ledger
  import opened LedgerInvariant
  import opened LedgerRuns
  import opened LedgerHistory
  import opened LedgerDocuments
  import opened LedgerBatches

  /** Non-negative, one-sided lines whose debits and credits add up to the same. */
  ghost predicate BalancedEntries(entries: seq<Entry>) {
    (forall e :: e in entries ==> EntryCheck(e)) && Sum(entries, EntryDebit()) == Sum(entries, EntryCredit())
  }

  predicate UsableLine(db: Db, t: Id, e: Entry) {
    && e.account in db.accounts && db.accounts[e.account].tenant == t && db.accounts[e.account].active
    && Supplies(e.dims, db.accounts[e.account].needs)
  }

  predicate OpenOn(db: Db, t: Id, d: int) {
    exists p :: p in db.periods && Covers(db.periods[p], t, d) && db.periods[p].status == Open
  }

  lemma {:induction false} FirstFaultExactly(entries: seq<Entry>)
    ensures FirstFault(entries).None? <==> forall e :: e in entries ==> EntryCheck(e)
  {
    if entries != [] {
      var n := |entries| - 1;
      FirstFaultExactly(entries[..n]);
      assert entries == entries[..n] + [entries[n]];
      assert LineFault(entries[n]).None? <==> EntryCheck(entries[n]);
    }
  }

  lemma BalanceFaultExactly(entries: seq<Entry>)
    ensures BalanceFault(entries).None? <==> BalancedEntries(entries)
  {
    FirstFaultExactly(entries);
  }

  lemma AccountFaultExactly(db: Db, t: Id, entries: seq<Entry>)
    ensures AccountFault(db, t, entries).None? <==> forall e :: e in entries ==> UsableLine(db, t, e)
  {
    hide Supplies;
    if AccountFault(db, t, entries).None? {
      forall e | e in entries
        ensures UsableLine(db, t, e)
      {
        assert OwnAccount(db, t, e.account);
      }
    }
  }

  lemma OpenPeriodExactly(db: Db, t: Id, d: int)
    requires PeriodsOk(db.periods)
    ensures PeriodFor(db, t, d).Some? ==> PeriodFor(db, t, d).value in db.periods
    ensures OpenOn(db, t, d) <==> PeriodFor(db, t, d).Some? && db.periods[PeriodFor(db, t, d).value].status == Open
  {
    hide PeriodsOk;
    if p :| p in db.periods && Covers(db.periods[p], t, d) && db.periods[p].status == Open {
      CoverUnique(db.periods, t, d, p, PeriodFor(db, t, d).value);
    }
  }

  /** A post is accepted exactly when its document was posted before, or its lines are balanced
      and usable and its date lies in an open period. */
  lemma PostAcceptedExactlyWhen(guarded: bool, db: Db, c: Command)
    requires Inv(db) && c.CreateJournal? && c.id !in db.journals
    ensures Step(guarded, db, c).1.Ok? <==>
            || DocKey(c.t, c.docType, c.docId) in db.locks
            || (&& BalancedEntries(c.entries) && OpenOn(db, c.t, c.date)
                && forall e :: e in c.entries ==> UsableLine(db, c.t, e))
  {
    hide PeriodsOk, AccountsOk, JournalsOk, LinesOk, BalancedOk, LocksOk, LinksOk, BatchColumnOk, BatchesOk, Projects;
    hide BalanceFault, AccountFault, BalancedEntries, OpenOn, UsableLine, Step, PeriodFor, PostManual;
    if DocKey(c.t, c.docType, c.docId) in db.locks {
      LockedJournal(db, DocKey(c.t, c.docType, c.docId));
      LockedPost(guarded, db, c);
    } else {
      BalanceFaultExactly(c.entries);
      AccountFaultExactly(db, c.t, c.entries);
      OpenPeriodExactly(db, c.t, c.date);
      StepShape(guarded, db, c);
      InsertAccepts(db, c);
    }
  }

  lemma InsertAccepts(db: Db, c: Command)
    requires c.CreateJournal? && DocKey(c.t, c.docType, c.docId) !in db.locks && c.id !in db.journals
    ensures var p := PeriodFor(db, c.t, c.date);
            PostManual(db, c.t, c.date, c.source, c.docType, c.docId, c.entries, c.id).Ok? <==>
              && BalanceFault(c.entries).None? && p.Some? && p.value in db.periods && db.periods[p.value].status == Open
              && AccountFault(db, c.t, c.entries).None?
  {
    hide AccountFault, FirstFault;
    if BalanceFault(c.entries).None? {
      FirstFaultExactly(c.entries);
    }
  }

  // ----- Reversals -----

  function EntryNet(): Entry -> int { (e: Entry) => e.debit - e.credit }

  lemma {:induction false} EntriesOfIn(lines: seq<Line>, t: Id, j: Id, e: Entry)
    ensures e in EntriesOf(lines, t, j) <==> Line(t, j, e) in lines
  {
    if lines != [] {
      var n := |lines| - 1;
      EntriesOfIn(lines[..n], t, j, e);
      assert lines == lines[..n] + [lines[n]];
    }
  }

  lemma {:induction false} MirroredNet(entries: seq<Entry>, j: Id)
    ensures Sum(Mirrored(entries, j), EntryDebit()) == Sum(entries, EntryCredit())
    ensures Sum(Mirrored(entries, j), EntryCredit()) == Sum(entries, EntryDebit())
  {
    if entries != [] {
      var n := |entries| - 1;
      MirroredNet(entries[..n], j);
      assert Mirrored(entries, j)[..n] == Mirrored(entries[..n], j);
    }
  }

  /** The mirror image of a posted journal is balanced again. */
  lemma MirrorBalanced(db: Db, t: Id, j: Id)
    requires LinesOk(db.lines, db.journals, db.accounts) && BalancedOk(db.lines)
    requires j in db.journals && db.journals[j].tenant == t
    ensures BalancedEntries(Mirrored(EntriesOf(db.lines, t, j), j))
  {
    var entries := EntriesOf(db.lines, t, j);
    forall e | e in Mirrored(entries, j)
      ensures EntryCheck(e)
    {
      var i :| 0 <= i < |entries| && e == Mirror(entries[i], j);
      EntriesOfIn(db.lines, t, j, entries[i]);
      assert LineOk(db.journals, db.accounts, Line(t, j, entries[i]));
    }
    MirroredNet(entries, j);
    EntriesSum(db.lines, t, j, EntryNet());
    SumLinear(entries, EntryNet(), EntryDebit(), EntryCredit(), -1);
    forall l | l in db.lines
      ensures OfEntry(t, j, EntryNet())(l) == NetIf(OfJournal(j))(l)
    {
      assert LineOk(db.journals, db.accounts, l);
    }
    SumCong(db.lines, OfEntry(t, j, EntryNet()), NetIf(OfJournal(j)));
    assert JournalNet(db.lines, j) == 0;
  }

  /** The reversing line of a posted one can be posted now: the account is active, and of the
      dimensions it requires only a department, which the line has, is carried over. */
  predicate Reversible(db: Db, l: Line) {
    l.entry.account in db.accounts &&
    var a := db.accounts[l.entry.account];
    && a.active && (a.needs.department ==> Given(l.entry.dims.department))
    && !a.needs.store && !a.needs.salesperson && !a.needs.vehicle && !a.needs.repairOrder
  }

  lemma ReversibleExactly(db: Db, t: Id, j: Id)
    requires LinesOk(db.lines, db.journals, db.accounts) && j in db.journals && db.journals[j].tenant == t
    ensures AccountFault(db, t, Mirrored(EntriesOf(db.lines, t, j), j)).None? <==>
            forall l :: l in db.lines && l.journal == j ==> Reversible(db, l)
  {
    var entries := EntriesOf(db.lines, t, j);
    var mirrored := Mirrored(entries, j);
    AccountFaultExactly(db, t, mirrored);
    forall l | l in db.lines
      ensures LineOk(db.journals, db.accounts, l)
    {}
    hide LinesOk, AccountFault;
    forall l | l in db.lines && l.journal == j
      ensures Mirror(l.entry, j) in mirrored && (UsableLine(db, t, Mirror(l.entry, j)) <==> Reversible(db, l))
    {
      assert l == Line(t, j, l.entry);
      EntriesOfIn(db.lines, t, j, l.entry);
      var i :| 0 <= i < |entries| && entries[i] == l.entry;
      assert mirrored[i] == Mirror(l.entry, j);
    }
    forall e | e in mirrored
      ensures exists l :: l in db.lines && l.journal == j && e == Mirror(l.entry, j)
    {
      var i :| 0 <= i < |entries| && e == Mirror(entries[i], j);
      EntriesOfIn(db.lines, t, j, entries[i]);
      assert Line(t, j, entries[i]) in db.lines;
    }
  }

  /** A reversal is accepted exactly when the tenant's journal was reversed before, or its own
      period is open and its document is taken or each of its lines is reversible. */
  lemma ReversalAcceptedExactlyWhen(guarded: bool, db: Db, t: Id, j: Id, id: Id)
    requires Inv(db) && id !in db.journals
    ensures Step(guarded, db, ReverseJournal(t, j, id)).1.Ok? <==>
            && j in db.journals && db.journals[j].tenant == t
            && (|| LinkKey(t, j) in db.links
                || (&& IsOpen(db, db.journals[j].period)
                    && (|| DocKey(t, REVERSAL, j) in db.locks
                        || forall l :: l in db.lines && l.journal == j ==> Reversible(db, l))))
  {
    hide PeriodsOk, AccountsOk, JournalsOk, LinesOk, BalancedOk, LocksOk, LinksOk, BatchColumnOk, BatchesOk, Projects;
    hide Step, PostManual, Reverse, BalanceFault, AccountFault, BalancedEntries, Reversible, PeriodFor;
    StepShape(guarded, db, ReverseJournal(t, j, id));
    if j !in db.journals || db.journals[j].tenant != t {
      NotReversed(db, t, j, id);
    } else if LinkKey(t, j) in db.links {
      LinkedReversal(guarded, db, t, j, id);
    } else {
      OwnPeriod(db, t, j);
      ReverseAccepts(db, t, j, id);
      if IsOpen(db, db.journals[j].period) { ReversingPost(db, t, j, id); }
    }
  }

  predicate IsOpen(db: Db, p: Id) {
    p in db.periods && db.periods[p].status == Open
  }

  lemma NotReversed(db: Db, t: Id, j: Id, id: Id)
    requires j !in db.journals || db.journals[j].tenant != t
    ensures Reverse(db, t, j, id).Err?
  {
  }

  /** The post inside a reversal of a journal in an open period. */
  lemma ReversingPost(db: Db, t: Id, j: Id, id: Id)
    requires Sound(db) && j in db.journals && db.journals[j].tenant == t && id !in db.journals
    requires PeriodFor(db, t, db.journals[j].date) == Some(db.journals[j].period) && IsOpen(db, db.journals[j].period)
    ensures var entries := Mirrored(EntriesOf(db.lines, t, j), j);
            PostManual(db, t, db.journals[j].date, REVERSAL, REVERSAL, j, entries, id).Ok? <==>
            || DocKey(t, REVERSAL, j) in db.locks
            || forall l :: l in db.lines && l.journal == j ==> Reversible(db, l)
  {
    hide PeriodsOk, AccountsOk, JournalsOk, LinesOk, BalancedOk, LocksOk, LinksOk, BatchColumnOk, BatchesOk;
    hide BalanceFault, AccountFault, BalancedEntries, Reversible, PeriodFor;
    var entries := Mirrored(EntriesOf(db.lines, t, j), j);
    if DocKey(t, REVERSAL, j) in db.locks {
      LockedJournal(db, DocKey(t, REVERSAL, j));
    } else {
      MirrorBalanced(db, t, j);
      ReversibleExactly(db, t, j);
      BalanceFaultExactly(entries);
      InsertAccepts(db, CreateJournal(t, db.journals[j].date, REVERSAL, REVERSAL, j, entries, id));
    }
  }

  lemma ReverseAccepts(db: Db, t: Id, j: Id, id: Id)
    requires j in db.journals && db.journals[j].tenant == t && LinkKey(t, j) !in db.links
    ensures var date, p := db.journals[j].date, PeriodFor(db, t, db.journals[j].date);
            Reverse(db, t, j, id).Ok? <==>
              && p.Some? && p.value in db.periods && db.periods[p.value].status == Open
              && PostManual(db, t, date, REVERSAL, REVERSAL, j, Mirrored(EntriesOf(db.lines, t, j), j), id).Ok?
  {
    hide PostManual;
  }

  // ----- Batches -----

  lemma PostBatchAccepts(db: Db, t: Id, b: Id, id: Id)
    requires OwnBatch(db, t, b) && db.batches[b].status != Posted
    ensures var v, row := Restamp(db, b, Validated), db.batches[b];
            PostBatch(false, db, t, b, id).Ok? <==>
              && PayloadFault(db, t, row.date, row.entries).None?
              && PostManual(v, t, row.date, row.source, BATCH, b, row.entries, id).Ok?
  {
    hide PayloadFault, PostManual;
    var v, row := Restamp(db, b, Validated), db.batches[b];
    if PostManual(v, t, row.date, row.source, BATCH, b, row.entries, id).Ok? {
      PostManualOutcome(v, t, row.date, row.source, BATCH, b, row.entries, id);
    }
  }

  lemma PayloadFaultExactly(db: Db, t: Id, d: int, entries: seq<Entry>)
    requires PeriodsOk(db.periods)
    ensures PayloadFault(db, t, d, entries).None? <==> BalancedEntries(entries) && OpenOn(db, t, d)
  {
    BalanceFaultExactly(entries);
    OpenPeriodExactly(db, t, d);
    hide PeriodsOk, BalancedEntries, OpenOn, BalanceFault;
  }

  /** Without the update trigger a post of the tenant's batch is accepted exactly when the batch
      was posted before, or its date lies in an open period and its document is taken or its
      lines, whose accounts nobody has looked at until now, are usable. */
  lemma BatchAcceptedExactlyWhen(db: Db, t: Id, b: Id, id: Id)
    requires Inv(db) && id !in db.journals
    ensures Step(false, db, FinishBatch(t, b, id)).1.Ok? <==>
            && OwnBatch(db, t, b)
            && (|| db.batches[b].status == Posted
                || (&& OpenOn(db, t, db.batches[b].date)
                    && (|| DocKey(t, BATCH, b) in db.locks
                        || forall e :: e in db.batches[b].entries ==> UsableLine(db, t, e))))
  {
    hide Step, Projects, PostBatch, OpenOn, UsableLine, Sound;
    StepShape(false, db, FinishBatch(t, b, id));
    if !OwnBatch(db, t, b) {
      NotPosted(db, t, b, id);
    } else if db.batches[b].status == Posted {
      SoundCarrier(db, b);
      var j :| Carries(db.batchOf, j, b);
      PostedAnswer(false, db, t, b, id, j);
    } else {
      SoundBatch(db, b);
      BatchPostOk(db, t, b, id);
    }
  }

  lemma NotPosted(db: Db, t: Id, b: Id, id: Id)
    requires !OwnBatch(db, t, b)
    ensures PostBatch(false, db, t, b, id).Err?
  {
  }

  lemma SoundCarrier(db: Db, b: Id)
    requires Sound(db) && b in db.batches && db.batches[b].status == Posted
    ensures exists j :: Carries(db.batchOf, j, b)
  {
    hide PeriodsOk, AccountsOk, JournalsOk, LinesOk, BalancedOk, LocksOk, LinksOk, BatchColumnOk;
  }

  lemma BatchPostOk(db: Db, t: Id, b: Id, id: Id)
    requires Sound(db) && OwnBatch(db, t, b) && db.batches[b].status != Posted && id !in db.journals
    requires BalancedEntries(db.batches[b].entries) && PeriodsOk(db.periods)
    ensures PostBatch(false, db, t, b, id).Ok? <==>
            && OpenOn(db, t, db.batches[b].date)
            && (|| DocKey(t, BATCH, b) in db.locks
                || forall e :: e in db.batches[b].entries ==> UsableLine(db, t, e))
  {
    hide Sound, PeriodsOk, PostManual, PostBatch, BalanceFault, AccountFault, BalancedEntries, PeriodFor;
    hide OpenOn, UsableLine, PayloadFault;
    var v, row := Restamp(db, b, Validated), db.batches[b];
    PayloadFaultExactly(db, t, row.date, row.entries);
    PostBatchAccepts(db, t, b, id);
    if DocKey(t, BATCH, b) in db.locks {
      LockedJournal(db, DocKey(t, BATCH, b));
      LockedAccepts(v, t, row.date, row.source, BATCH, b, row.entries, id);
    } else {
      OpenPeriodExactly(db, t, row.date);
      SamePeriods(db, v, t, row.date);
      BalanceFaultExactly(row.entries);
      SameUsable(db, v, t, row.entries);
      InsertAccepts(v, CreateJournal(t, row.date, row.source, BATCH, b, row.entries, id));
    }
  }

  lemma LockedAccepts(db: Db, t: Id, date: int, source: string, docType: string, docId: string, entries: seq<Entry>,
                      id: Id)
    requires DocKey(t, docType, docId) in db.locks && db.locks[DocKey(t, docType, docId)] in db.journals
    ensures PostManual(db, t, date, source, docType, docId, entries, id).Ok?
  {
  }

  lemma SoundBatch(db: Db, b: Id)
    requires Sound(db) && b in db.batches
    ensures PeriodsOk(db.periods) && BalancedEntries(db.batches[b].entries)
  {
    hide PeriodsOk, BalancedEntries;
    BatchBalanced(db, b);
  }

  lemma BatchBalanced(db: Db, b: Id)
    requires BatchesOk(db.batchOf, db.batches) && b in db.batches
    ensures BalancedEntries(db.batches[b].entries)
  {
    BalanceFaultExactly(db.batches[b].entries);
  }

  lemma SameUsable(db: Db, v: Db, t: Id, entries: seq<Entry>)
    requires v.accounts == db.accounts
    ensures AccountFault(v, t, entries).None? <==> forall e :: e in entries ==> UsableLine(db, t, e)
  {
    hide AccountFault;
    AccountFaultExactly(v, t, entries);
    assert forall e :: UsableLine(v, t, e) <==> UsableLine(db, t, e);
  }
}
