// The accounting service over a database session: the same statements in the same
// order as the service functions, each proved to compute its ledger transaction.
module LedgerService {
  import opened Prelude
  import opened Sums
  import opened Calendar
  import opened Ledger
  import opened LedgerInvariant
  import opened LedgerRuns

  /** `committed` is what other requests see, `work` the session's own copy, and
      `deferred` the queue of deferred line triggers of the open transaction. */
  class LedgerSession {
    const guarded: bool
    var committed: Db
    var work: Db
    var deferred: seq<Line>

    ghost predicate Idle()
      reads this
    {
      Inv(committed) && work == committed && deferred == []
    }

    constructor (guarded: bool)
      ensures Idle() && committed == EMPTY_DB && this.guarded == guarded
    {
      this.guarded := guarded;
      committed, work, deferred := EMPTY_DB, EMPTY_DB, [];
      EmptyInv();
    }

    // ----- Checks -----

    static method ValidateBalanced(entries: seq<Entry>) returns (fault: Option<Fault>)
      ensures fault == BalanceFault(entries)
    {
      hide Sum, FirstFault;
      NoEntriesYet(entries);
      var debit, credit := 0, 0;
      for i := 0 to |entries|
        invariant debit == Sum(entries[..i], EntryDebit()) && credit == Sum(entries[..i], EntryCredit())
        invariant FirstFault(entries[..i]).None?
      {
        var e := entries[i];
        OneMoreEntry(entries, i);
        if e.debit < 0 || e.credit < 0 {
          FaultStays(entries, i + 1);
          return Some(InvalidAmount);
        }
        if e.debit > 0 && e.credit > 0 {
          FaultStays(entries, i + 1);
          return Some(InvalidLine);
        }
        debit, credit := debit + e.debit, credit + e.credit;
      }
      assert entries[..|entries|] == entries;
      fault := if debit != credit then Some(Unbalanced) else None;
    }

    static lemma NoEntriesYet(entries: seq<Entry>)
      ensures Sum(entries[..0], EntryDebit()) == 0 && Sum(entries[..0], EntryCredit()) == 0
      ensures FirstFault(entries[..0]).None?
    {
    }

    static lemma OneMoreEntry(entries: seq<Entry>, i: nat)
      requires i < |entries|
      ensures Sum(entries[..i + 1], EntryDebit()) == Sum(entries[..i], EntryDebit()) + entries[i].debit
      ensures Sum(entries[..i + 1], EntryCredit()) == Sum(entries[..i], EntryCredit()) + entries[i].credit
      ensures var before := FirstFault(entries[..i]);
              FirstFault(entries[..i + 1]) == if before.Some? then before else LineFault(entries[i])
    {
      assert entries[..i + 1][..i] == entries[..i];
    }

    static lemma {:induction false} FaultStays(entries: seq<Entry>, n: nat)
      requires n <= |entries| && FirstFault(entries[..n]).Some?
      ensures FirstFault(entries) == FirstFault(entries[..n])
      decreases |entries| - n
    {
      if n < |entries| {
        assert entries[..n + 1][..n] == entries[..n];
        FaultStays(entries, n + 1);
      } else {
        assert entries[..n] == entries;
      }
    }

    method FindPeriodForDate(t: Id, d: int) returns (p: Option<Id>)
      requires PeriodsOk(work.periods)
      ensures p == PeriodFor(work, t, d)
    {
      hide PeriodsOk;
      if exists q :: q in work.periods && Covers(work.periods[q], t, d) {
        var q :| q in work.periods && Covers(work.periods[q], t, d);
        CoverUnique(work.periods, t, d, q, PeriodFor(work, t, d).value);
        p := Some(q);
      } else {
        p := None;
      }
    }

    /** The shared prefix of create_batch and validate_batch. */
    method CheckPayload(t: Id, date: int, entries: seq<Entry>) returns (fault: Option<Fault>)
      requires PeriodsOk(work.periods)
      ensures fault == PayloadFault(work, t, date, entries)
    {
      fault := ValidateBalanced(entries);
      if fault.Some? { return; }
      var p := FindPeriodForDate(t, date);
      if p.None? { return Some(NoPeriod); }
      if work.periods[p.value].status != Open { return Some(PeriodClosed); }
    }

    // ----- Flush and commit -----

    /** Flush of a new journal with its lines and lock: row by row, each through its
        constraints and triggers. */
    method FlushJournal(id: Id, row: Journal, rows: seq<Line>, ghost entries: seq<Entry>) returns (fault: Option<Fault>)
      requires rows == Rows(row.tenant, id, entries)
      modifies this`work, this`deferred
      ensures match InsertJournal(old(work), id, row, entries)
              case Ok(w) => fault.None? && work == w && deferred == old(deferred) + rows
                && w.lines == old(work).lines + rows
              case Err(e) => fault == Some(e)
    {
      fault := None;
      if id in work.journals { return Some(UniqueViolation); }
      if !InsertTriggerAccepts(work, row) { return Some(JournalTrigger); }
      work := work.(journals := work.journals[id := row]);
      for i := 0 to |rows|
        invariant work == old(work).(journals := old(work).journals[id := row], lines := old(work).lines + rows[..i])
        invariant deferred == old(deferred) + rows[..i]
        invariant forall k :: 0 <= k < i ==> EntryCheck(entries[k])
      {
        if !EntryCheck(rows[i].entry) {
          assert entries[i] in entries;
          return Some(CheckViolation);
        }
        work := work.(lines := work.lines + [rows[i]]);
        deferred := deferred + [rows[i]];
        assert rows[..i + 1] == rows[..i] + [rows[i]];
      }
      assert rows[..|rows|] == rows;
      assert forall e :: e in entries ==> EntryCheck(e);
      if DocOf(row) in work.locks { return Some(UniqueViolation); }
      work := work.(locks := work.locks[DocOf(row) := id]);
    }

    /** COMMIT with its deferred triggers, or the rollback that a rejection causes. */
    method Commit() returns (fault: Option<Fault>)
      modifies this
      ensures work == committed && deferred == []
      ensures match Publish(old(work), old(deferred))
              case Ok(db) => fault.None? && committed == db
              case Err(e) => fault == Some(e) && committed == old(committed)
    {
      var balances := work.balances;
      for i := 0 to |deferred|
        invariant work == old(work) && deferred == old(deferred) && committed == old(committed)
        invariant forall k :: 0 <= k < i ==> JournalNet(work.lines, deferred[k].journal) == 0
        invariant balances == ApplyBalances(work.balances, work.journals, deferred[..i])
      {
        var l := deferred[i];
        if JournalNet(work.lines, l.journal) != 0 {
          assert l in deferred;
          Rollback();
          return Some(BalanceTrigger);
        }
        assert deferred[..i + 1][..i] == deferred[..i];
        balances := Upsert(balances, BalanceKeyOf(work.journals, l), l.entry);
      }
      assert deferred[..|deferred|] == deferred;
      work := work.(balances := balances);
      committed, deferred, fault := work, [], None;
    }

    method Rollback()
      modifies this`work, this`deferred
      ensures work == committed && deferred == []
    {
      work, deferred := committed, [];
    }

    // ----- Service -----

    /** The effect of a service call on the session: it succeeds with the specified working
        copy and queues its new lines, or it fails with the specified error. */
    ghost predicate Effect(spec: Result<(Db, Id), Fault>, before: Db, queued: seq<Line>, r: Result<Id, Fault>)
      reads this
    {
      match spec
      case Err(e) => r == Err(e)
      case Ok((w, id)) =>
        r == Ok(id) && work == w && before.lines <= w.lines && deferred == queued + w.lines[|before.lines|..]
    }

    method CreateManualJournal(t: Id, date: int, source: string, docType: string, docId: string, entries: seq<Entry>,
                               id: Id)
      returns (r: Result<Id, Fault>)
      requires PeriodsOk(work.periods)
      modifies this`work, this`deferred
      ensures Effect(PostManual(old(work), t, date, source, docType, docId, entries, id), old(work), old(deferred), r)
    {
      hide PeriodsOk;
      hide BalanceFault, AccountFault, InsertJournal;
      var doc := DocKey(t, docType, docId);
      if doc in work.locks {
        if work.locks[doc] !in work.journals { return Err(LockCorrupt); }
        assert work.lines[|work.lines|..] == [];
        return Ok(work.locks[doc]);
      }
      var fault := ValidateBalanced(entries);
      if fault.Some? { return Err(fault.value); }
      var p := FindPeriodForDate(t, date);
      if p.None? { return Err(NoPeriod); }
      if work.periods[p.value].status != Open { return Err(PeriodClosed); }
      var row := Journal(t, date, p.value, source, docType, docId, |work.journals|);

      var rows;
      fault, rows := BuildLines(t, id, entries);
      if fault.Some? { return Err(fault.value); }
      fault := FlushJournal(id, row, rows, entries);
      if fault.Some? { return Err(fault.value); }
      assert work.lines[|old(work).lines|..] == rows;
      return Ok(id);
    }

    /** The account lookup, the two account checks, and the loop that checks the required
        dimensions of each line and builds its row. */
    method BuildLines(t: Id, id: Id, entries: seq<Entry>) returns (fault: Option<Fault>, rows: seq<Line>)
      ensures fault == AccountFault(work, t, entries)
      ensures fault.None? ==> rows == Rows(t, id, entries)
    {
      rows := [];
      if exists e :: e in entries && !OwnAccount(work, t, e.account) { return Some(AccountMissing), rows; }
      if exists e :: e in entries && !work.accounts[e.account].active { return Some(AccountInactive), rows; }
      for i := 0 to |entries|
        invariant rows == Rows(t, id, entries[..i])
        invariant forall k :: 0 <= k < i ==> Supplies(entries[k].dims, work.accounts[entries[k].account].needs)
      {
        var e := entries[i];
        if !Supplies(e.dims, work.accounts[e.account].needs) {
          assert e in entries;
          return Some(DimensionRequired), rows;
        }
        rows := rows + [Line(t, id, e)];
      }
      assert entries[..|entries|] == entries;
      fault := None;
    }

    method ReverseJournal(t: Id, j: Id, id: Id) returns (r: Result<Id, Fault>)
      requires PeriodsOk(work.periods)
      modifies this`work, this`deferred
      ensures Effect(Reverse(old(work), t, j, id), old(work), old(deferred), r)
    {
      hide PeriodsOk, PostManual;
      if j !in work.journals || work.journals[j].tenant != t { return Err(JournalNotFound); }
      var original := work.journals[j];
      if LinkKey(t, j) in work.links {
        if work.links[LinkKey(t, j)] !in work.journals { return Err(ReversalCorrupt); }
        assert work.lines[|work.lines|..] == [];
        return Ok(work.links[LinkKey(t, j)]);
      }
      var p := FindPeriodForDate(t, original.date);
      if p.None? { return Err(NoPeriod); }
      if work.periods[p.value].status != Open { return Err(PeriodClosed); }

      var entries := EntriesOf(work.lines, t, j);
      var inverted: seq<Entry> := [];
      for i := 0 to |entries|
        invariant |inverted| == i && forall k :: 0 <= k < i ==> inverted[k] == Mirror(entries[k], j)
      {
        var e := entries[i];
        inverted := inverted + [Entry(e.account, e.credit, e.debit,
                                      Dims(e.dims.department, None, None, None, None), Some("REVERSAL of " + j))];
      }
      assert inverted == Mirrored(entries, j);
      r := CreateManualJournal(t, original.date, REVERSAL, REVERSAL, j, inverted, id);
      if r.Err? { return; }
      work := work.(links := work.links[LinkKey(t, j) := r.value]);
    }

    method CreateBatch(doc: DocKey, source: string, date: int, entries: seq<Entry>, id: Id)
      returns (r: Result<Id, Fault>)
      requires PeriodsOk(work.periods)
      modifies this`work, this`deferred
      ensures Effect(DraftBatch(old(work), doc, source, date, entries, id), old(work), old(deferred), r)
    {
      hide PeriodsOk, PayloadFault;
      var fault := CheckPayload(doc.tenant, date, entries);
      if fault.Some? { return Err(fault.value); }
      if id in work.batches || exists b :: b in work.batches && work.batches[b].doc == doc {
        return Err(UniqueViolation);
      }
      work := work.(batches := work.batches[id := Batch(doc, source, Draft, date, entries, 1)]);
      assert work.lines[|work.lines|..] == [];
      return Ok(id);
    }

    method ValidateBatch(t: Id, b: Id) returns (r: Result<Id, Fault>)
      requires PeriodsOk(work.periods)
      modifies this`work, this`deferred
      ensures Effect(Ledger.ValidateBatch(old(work), t, b), old(work), old(deferred), r)
    {
      hide PeriodsOk, PayloadFault;
      if b !in work.batches || work.batches[b].doc.tenant != t { return Err(BatchNotFound); }
      assert work.lines[|work.lines|..] == [];
      var batch := work.batches[b];
      if batch.status == Posted { return Ok(b); }
      var fault := CheckPayload(t, batch.date, batch.entries);
      if fault.Some? { return Err(fault.value); }
      batch := batch.(status := Validated, rowVersion := batch.rowVersion + 1);
      work := work.(batches := work.batches[b := batch]);
      return Ok(b);
    }

    method PostBatch(t: Id, b: Id, id: Id) returns (r: Result<Id, Fault>)
      requires Sound(work)
      modifies this`work, this`deferred
      ensures Effect(Ledger.PostBatch(guarded, old(work), t, b, id), old(work), old(deferred), r)
    {
      hide AccountsOk, JournalsOk, LinesOk, BalancedOk, LinksOk;
      hide BatchesOk, PeriodsOk, PostManual, PayloadFault, LocksOk, BatchColumnOk;
      hide Ledger.PostBatch;
      PostBatchCases(guarded, work, t, b, id);
      if b !in work.batches || work.batches[b].doc.tenant != t { return Err(BatchNotFound); }
      if work.batches[b].status == Posted {
        if exists j :: j in work.journals && work.journals[j].tenant == t && j in work.batchOf && work.batchOf[j] == b {
          var j :| j in work.journals && work.journals[j].tenant == t && j in work.batchOf && work.batchOf[j] == b;
          OneJournalOfBatch(work, j, JournalOfBatch(work, t, b).value, b);
          assert work.lines[|work.lines|..] == [];
          return Ok(j);
        }
        return Err(BatchCorrupt);
      }
      var v := ValidateBatch(t, b);
      if v.Err? { return v; }
      var batch := work.batches[b];
      assert work == Restamp(old(work), b, Validated) && deferred == old(deferred);
      r := CreateManualJournal(t, batch.date, batch.source, BATCH, b, batch.entries, id);
      if r.Err? { return; }
      var j := r.value;
      if guarded && !(j in work.batchOf && work.batchOf[j] == b) { return Err(ImmutableTable); }
      batch := work.batches[b].(status := Posted, rowVersion := work.batches[b].rowVersion + 1);
      work := work.(batchOf := work.batchOf[j := b], batches := work.batches[b := batch]);
    }

    static lemma OneJournalOfBatch(db: Db, i: Id, j: Id, b: Id)
      requires LocksOk(db.locks, db.journals) && BatchColumnOk(db.batchOf, db.batches, db.journals)
      requires Carries(db.batchOf, i, b) && Carries(db.batchOf, j, b)
      ensures i == j
    {
    }

    // ----- Endpoints -----

    /** The loop of seed_year over the twelve months. */
    method SeedYear(t: Id, year: int, ids: nat -> Id) returns (fault: Option<Fault>)
      modifies this`work
      ensures match SeedMonths(old(work), t, year, 12, ids)
              case Ok(w) => fault.None? && work == w
              case Err(e) => fault == Some(e)
    {
      hide SeedMonths, HasMonth, Ordinal, DaysInMonth;
      NothingSeeded(work, t, year, ids);
      var m := 1;
      while m <= 12
        invariant 1 <= m <= 13
        invariant SeedMonths(old(work), t, year, m - 1, ids) == Ok(work)
      {
        SeedNext(old(work), t, year, m, ids, work);
        if !HasMonth(work, t, year, m) {
          if ids(m) in work.periods {
            SeedFailureStays(old(work), t, year, m, ids);
            return Some(UniqueViolation);
          }
          var lastDay := DaysInMonth(year, m);
          var p := Period(t, year, m, Ordinal(year, m, 1), Ordinal(year, m, lastDay), Open);
          work := work.(periods := work.periods[ids(m) := p]);
        }
        m := m + 1;
      }
      fault := None;
    }

    static lemma NothingSeeded(db: Db, t: Id, y: int, ids: nat -> Id)
      ensures SeedMonths(db, t, y, 0, ids) == Ok(db)
    {
    }

    static lemma SeedNext(db: Db, t: Id, y: int, m: nat, ids: nat -> Id, w: Db)
      requires 1 <= m <= 12 && SeedMonths(db, t, y, m - 1, ids) == Ok(w)
      ensures SeedMonths(db, t, y, m, ids) ==
              if HasMonth(w, t, y, m) then Ok(w)
              else if ids(m) in w.periods then Err(UniqueViolation)
              else
                var p := Period(t, y, m, Ordinal(y, m, 1), Ordinal(y, m, DaysInMonth(y, m)), Open);
                Ok(w.(periods := w.periods[ids(m) := p]))
    {
      hide HasMonth, Ordinal, DaysInMonth;
    }

    static lemma {:induction false} SeedFailureStays(db: Db, t: Id, y: int, m: nat, ids: nat -> Id)
      requires m <= 12 && SeedMonths(db, t, y, m, ids).Err?
      ensures SeedMonths(db, t, y, 12, ids) == SeedMonths(db, t, y, m, ids)
      decreases 12 - m
    {
      if m < 12 {
        SeedFailureStays(db, t, y, m + 1, ids);
      }
    }

    method CreateAccount(id: Id, a: Account) returns (r: Result<Id, Fault>)
      modifies this`work
      ensures Effect(Tagged(AddAccount(old(work), id, a), id), old(work), deferred, r)
    {
      assert work.lines[|work.lines|..] == [];
      if !KnownKind(a.kind) { return Err(CheckViolation); }
      if id in work.accounts
         || exists b :: b in work.accounts && work.accounts[b].tenant == a.tenant && work.accounts[b].number == a.number
      {
        return Err(UniqueViolation);
      }
      work := work.(accounts := work.accounts[id := a]);
      r := Ok(id);
    }

    static method Assigned<T>(change: Option<T>, now: T) returns (v: T)
      ensures v == Kept(change, now)
    {
      v := now;
      if change.Some? { v := change.value; }
    }

    static method ChangeNeeds(n: Needs, c: NeedsChange) returns (r: Needs)
      ensures r == Changed(n, c)
    {
      var department := Assigned(c.department, n.department);
      var store := Assigned(c.store, n.store);
      var salesperson := Assigned(c.salesperson, n.salesperson);
      var vehicle := Assigned(c.vehicle, n.vehicle);
      var repairOrder := Assigned(c.repairOrder, n.repairOrder);
      r := Needs(department, store, salesperson, vehicle, repairOrder);
    }

    /** Each field that is given is assigned, one after the other; the flush checks the type. */
    method UpdateAccount(t: Id, id: Id, kind: Option<string>, active: Option<bool>, needs: NeedsChange)
      returns (r: Result<Id, Fault>)
      modifies this`work
      ensures Effect(Tagged(EditAccount(old(work), t, id, kind, active, needs), id), old(work), deferred, r)
    {
      assert work.lines[|work.lines|..] == [];
      if id !in work.accounts || work.accounts[id].tenant != t { return Err(AccountNotFound); }
      var a := work.accounts[id];
      var kindNow := Assigned(kind, a.kind);
      var activeNow := Assigned(active, a.active);
      var needsNow := ChangeNeeds(a.needs, needs);
      if kind.Some? && !KnownKind(kindNow) { return Err(CheckViolation); }
      work := work.(accounts := work.accounts[id := a.(kind := kindNow, active := activeNow, needs := needsNow)]);
      r := Ok(id);
    }

    /** The body of one endpoint's `with uow as db:` block. */
    method Perform(c: Command) returns (r: Result<Id, Fault>)
      requires Sound(work)
      modifies this`work, this`deferred
      ensures Effect(Attempt(guarded, old(work), c), old(work), old(deferred), r)
    {
      hide PeriodsOk, AccountsOk, JournalsOk, LinesOk, BalancedOk, LocksOk, LinksOk, BatchColumnOk, BatchesOk;
      hide PostManual, Reverse, DraftBatch, Ledger.ValidateBatch, Ledger.PostBatch, SeedMonths;
      assert work.lines[|work.lines|..] == [];
      match c
      case CreateAccount(id, a) =>
        r := CreateAccount(id, a);
      case UpdateAccount(t, id, kind, active, needs) =>
        r := UpdateAccount(t, id, kind, active, needs);
      case SeedYear(t, y, ids) =>
        if !(FIRST_YEAR <= y <= LAST_YEAR) { return Err(InvalidYear); }
        var fault := SeedYear(t, y, ids);
        if fault.Some? { return Err(fault.value); }
        SeedKeepsLedger(old(work), t, y, 12, ids);
        r := Ok(t);
      case ClosePeriod(t, p) =>
        if p !in work.periods || work.periods[p].tenant != t { return Err(PeriodNotFound); }
        work := work.(periods := work.periods[p := work.periods[p].(status := Closed)]);
        r := Ok(p);
      case OpenPeriod(t, p) =>
        if p !in work.periods || work.periods[p].tenant != t { return Err(PeriodNotFound); }
        work := work.(periods := work.periods[p := work.periods[p].(status := Open)]);
        r := Ok(p);
      case CreateJournal(t, date, source, docType, docId, entries, id) =>
        r := CreateManualJournal(t, date, source, docType, docId, entries, id);
      case ReverseJournal(t, j, id) => r := ReverseJournal(t, j, id);
      case CreateBatch(doc, source, date, entries, id) => r := CreateBatch(doc, source, date, entries, id);
      case CheckBatch(t, b) => r := ValidateBatch(t, b);
      case FinishBatch(t, b, id) => r := PostBatch(t, b, id);
    }

    /** One request: the unit of work commits when the block ends and rolls back when it
        raises, so the committed tables move by exactly one ledger step. */
    method Handle(c: Command) returns (r: Result<Id, Fault>)
      requires Idle()
      modifies this
      ensures Idle()
      ensures (committed, r) == Step(guarded, old(committed), c)
    {
      hide Sound, Projects, Attempt, Publish;
      StepShape(guarded, committed, c);
      r := Perform(c);
      if r.Err? {
        Rollback();
      } else {
        AttemptAppends(guarded, old(committed), c);
        assert [] + work.lines[|old(committed).lines|..] == work.lines[|old(committed).lines|..];
        var fault := Commit();
        assert fault.None?;  // no deferred trigger ever rejects a request
      }
    }
  }
}
