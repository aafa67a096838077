// The answer of every ledger request, faults and all, in terms of the rows and the request alone.
module LedgerAnswers {
  import opened Prelude
  import opened Sums
  import opened Ledger
  import opened LedgerInvariant
  import opened LedgerRuns
  import opened LedgerHistory
  import opened LedgerDocuments
  import opened LedgerAcceptance

  // ----- What can be wrong with lines and a date -----

  predicate Negative(e: Entry) {
    e.debit < 0 || e.credit < 0
  }

  predicate TwoSided(e: Entry) {
    e.debit > 0 && e.credit > 0
  }

  function DebitTotal(entries: seq<Entry>): int {
    if entries == [] then 0 else DebitTotal(entries[..|entries| - 1]) + entries[|entries| - 1].debit
  }

  function CreditTotal(entries: seq<Entry>): int {
    if entries == [] then 0 else CreditTotal(entries[..|entries| - 1]) + entries[|entries| - 1].credit
  }

  /** Every line before the n-th is non-negative and one-sided. */
  predicate CleanTo(entries: seq<Entry>, n: nat)
    requires n <= |entries|
  {
    forall k :: 0 <= k < n ==> !Negative(entries[k]) && !TwoSided(entries[k])
  }

  predicate Clean(entries: seq<Entry>) {
    CleanTo(entries, |entries|)
  }

  /** The first faulty line has a negative amount, or has both sides. */
  predicate NegativeFirst(entries: seq<Entry>) {
    exists i :: 0 <= i < |entries| && CleanTo(entries, i) && Negative(entries[i])
  }

  predicate TwoSidedFirst(entries: seq<Entry>) {
    exists i :: 0 <= i < |entries| && CleanTo(entries, i) && !Negative(entries[i]) && TwoSided(entries[i])
  }

  predicate HoldsDate(p: Period, t: Id, d: int) {
    p.tenant == t && p.start <= d && d <= p.end
  }

  predicate DatedIn(db: Db, t: Id, d: int, status: PeriodStatus) {
    exists p :: p in db.periods && HoldsDate(db.periods[p], t, d) && db.periods[p].status == status
  }

  predicate HasPeriod(db: Db, t: Id, d: int) {
    exists p :: p in db.periods && HoldsDate(db.periods[p], t, d)
  }

  /** What is wrong with these lines on this date, before anybody looks at their accounts: the
      first faulty line, then the sums, then the period. */
  predicate PayloadWrong(db: Db, t: Id, d: int, entries: seq<Entry>, f: Fault) {
    match f
    case InvalidAmount => NegativeFirst(entries)
    case InvalidLine => TwoSidedFirst(entries)
    case Unbalanced => Clean(entries) && DebitTotal(entries) != CreditTotal(entries)
    case NoPeriod => Clean(entries) && DebitTotal(entries) == CreditTotal(entries) && !HasPeriod(db, t, d)
    case PeriodClosed => Clean(entries) && DebitTotal(entries) == CreditTotal(entries) && DatedIn(db, t, d, Closed)
    case _ => false
  }

  predicate PayloadFine(db: Db, t: Id, d: int, entries: seq<Entry>) {
    Clean(entries) && DebitTotal(entries) == CreditTotal(entries) && DatedIn(db, t, d, Open)
  }

  predicate Filled(o: Option<string>) {
    o != None && o != Some("")
  }

  /** The account requires a dimension that the line leaves out or empty. */
  predicate Lacks(d: Dims, n: Needs) {
    || (n.department && !Filled(d.department))
    || (n.store && !Filled(d.store))
    || (n.salesperson && !Filled(d.salesperson))
    || (n.vehicle && !Filled(d.vehicle))
    || (n.repairOrder && !Filled(d.repairOrder))
  }

  predicate KnownAccount(db: Db, t: Id, a: Id) {
    a in db.accounts && db.accounts[a].tenant == t
  }

  predicate AllKnown(db: Db, t: Id, entries: seq<Entry>) {
    forall e :: e in entries ==> KnownAccount(db, t, e.account)
  }

  predicate AllActive(db: Db, entries: seq<Entry>) {
    forall e :: e in entries ==> e.account in db.accounts && db.accounts[e.account].active
  }

  predicate AllSupplied(db: Db, entries: seq<Entry>) {
    forall e :: e in entries ==> e.account in db.accounts && !Lacks(e.dims, db.accounts[e.account].needs)
  }

  /** What is wrong with the accounts of these lines: one is missing, else one is inactive, else
      a line lacks a dimension. */
  predicate AccountsWrong(db: Db, t: Id, entries: seq<Entry>, f: Fault) {
    match f
    case AccountMissing => !AllKnown(db, t, entries)
    case AccountInactive => AllKnown(db, t, entries) && !AllActive(db, entries)
    case DimensionRequired => AllKnown(db, t, entries) && AllActive(db, entries) && !AllSupplied(db, entries)
    case _ => false
  }

  predicate AccountsFine(db: Db, t: Id, entries: seq<Entry>) {
    AllKnown(db, t, entries) && AllActive(db, entries) && AllSupplied(db, entries)
  }

  // ----- The checks of the service say just that -----

  lemma {:induction false} Totals(entries: seq<Entry>)
    ensures Sum(entries, EntryDebit()) == DebitTotal(entries) && Sum(entries, EntryCredit()) == CreditTotal(entries)
  {
    if entries != [] {
      Totals(entries[..|entries| - 1]);
    }
  }

  lemma CleanInit(entries: seq<Entry>)
    requires entries != []
    ensures var init, e := entries[..|entries| - 1], entries[|entries| - 1];
            && (forall i :: 0 <= i <= |init| ==> (CleanTo(entries, i) <==> CleanTo(init, i)))
            && (Clean(entries) <==> Clean(init) && !Negative(e) && !TwoSided(e))
  {
  }

  lemma FirstInit(entries: seq<Entry>)
    requires entries != []
    ensures var init, e := entries[..|entries| - 1], entries[|entries| - 1];
            && (NegativeFirst(entries) <==> NegativeFirst(init) || (Clean(init) && Negative(e)))
            && (TwoSidedFirst(entries) <==> TwoSidedFirst(init) || (Clean(init) && !Negative(e) && TwoSided(e)))
  {
    hide CleanTo, Negative, TwoSided;
    CleanInit(entries);
    var n := |entries| - 1;
    assert forall i :: 0 <= i < n ==> entries[..n][i] == entries[i];
  }

  lemma {:induction false} FirstFaultIs(entries: seq<Entry>)
    ensures FirstFault(entries) == None <==> Clean(entries)
    ensures FirstFault(entries) == Some(InvalidAmount) <==> NegativeFirst(entries)
    ensures FirstFault(entries) == Some(InvalidLine) <==> TwoSidedFirst(entries)
  {
    if entries != [] {
      hide Clean, NegativeFirst, TwoSidedFirst;
      FirstFaultIs(entries[..|entries| - 1]);
      CleanInit(entries);
      FirstInit(entries);
    }
  }

  lemma BalanceFaultIs(entries: seq<Entry>)
    ensures var b := BalanceFault(entries);
            && (b == None <==> Clean(entries) && DebitTotal(entries) == CreditTotal(entries))
            && (b == Some(InvalidAmount) <==> NegativeFirst(entries))
            && (b == Some(InvalidLine) <==> TwoSidedFirst(entries))
            && (b == Some(Unbalanced) <==> Clean(entries) && DebitTotal(entries) != CreditTotal(entries))
            && b in {None, Some(InvalidAmount), Some(InvalidLine), Some(Unbalanced)}
  {
    hide FirstFault, Sum, CleanTo, NegativeFirst, TwoSidedFirst;
    FirstFaultIs(entries);
    Totals(entries);
  }

  lemma PeriodIs(db: Db, t: Id, d: int)
    requires PeriodsOk(db.periods)
    ensures HasPeriod(db, t, d) <==> PeriodFor(db, t, d).Some?
    ensures forall status ::
              DatedIn(db, t, d, status)
              <==> PeriodFor(db, t, d).Some? && db.periods[PeriodFor(db, t, d).value].status == status
  {
    hide PeriodsOk;
    assert forall p: Period :: HoldsDate(p, t, d) <==> Covers(p, t, d);
    forall status | DatedIn(db, t, d, status)
      ensures PeriodFor(db, t, d).Some? && db.periods[PeriodFor(db, t, d).value].status == status
    {
      var p :| p in db.periods && HoldsDate(db.periods[p], t, d) && db.periods[p].status == status;
      CoverUnique(db.periods, t, d, p, PeriodFor(db, t, d).value);
    }
  }

  lemma PayloadFaultIs(db: Db, t: Id, d: int, entries: seq<Entry>)
    requires PeriodsOk(db.periods)
    ensures forall f :: PayloadFault(db, t, d, entries) == Some(f) <==> PayloadWrong(db, t, d, entries, f)
    ensures PayloadFault(db, t, d, entries) == None <==> PayloadFine(db, t, d, entries)
  {
    hide BalanceFault, PeriodsOk, PeriodFor, CleanTo, HasPeriod, DatedIn, NegativeFirst, TwoSidedFirst;
    BalanceFaultIs(entries);
    PeriodIs(db, t, d);
  }

  lemma OnePayloadFault(db: Db, t: Id, d: int, entries: seq<Entry>, f: Fault, g: Fault)
    requires PeriodsOk(db.periods) && PayloadWrong(db, t, d, entries, f) && PayloadWrong(db, t, d, entries, g)
    ensures f == g
  {
    hide PeriodsOk, PayloadWrong, PayloadFine, PayloadFault;
    PayloadFaultIs(db, t, d, entries);
  }

  lemma AccountFaultIs(db: Db, t: Id, entries: seq<Entry>)
    ensures forall f :: AccountFault(db, t, entries) == Some(f) <==> AccountsWrong(db, t, entries, f)
    ensures AccountFault(db, t, entries) == None <==> AccountsFine(db, t, entries)
  {
    assert forall d, n :: Supplies(d, n) <==> !Lacks(d, n);
    hide Supplies, Lacks;
    assert forall a :: OwnAccount(db, t, a) <==> KnownAccount(db, t, a);
  }

  lemma EntryCheckIs(entries: seq<Entry>)
    ensures Clean(entries) <==> forall e :: e in entries ==> EntryCheck(e)
  {
    forall i | 0 <= i < |entries| && !Negative(entries[i]) && !TwoSided(entries[i])
      ensures EntryCheck(entries[i])
    {
    }
    if forall e :: e in entries ==> EntryCheck(e) {
      forall k | 0 <= k < |entries| ensures !Negative(entries[k]) && !TwoSided(entries[k]) {
        assert EntryCheck(entries[k]);
      }
    }
  }

  // ----- create_journal -----

  /** What an unposted document is answered: the first thing wrong in the order of the checks,
      a violation if the new id is in use, or the new id. */
  ghost predicate PostAnswers(db: Db, t: Id, d: int, entries: seq<Entry>, id: Id, r: Result<Id, Fault>) {
    if PayloadFine(db, t, d, entries) then
      if AccountsFine(db, t, entries) then r == if id in db.journals then Err(UniqueViolation) else Ok(id)
      else r.Err? && AccountsWrong(db, t, entries, r.error)
    else r.Err? && PayloadWrong(db, t, d, entries, r.error)
  }

  function Answered(r: Result<(Db, Id), Fault>): Result<Id, Fault> {
    if r.Ok? then Ok(r.value.1) else Err(r.error)
  }

  lemma PostManualAnswers(db: Db, t: Id, d: int, source: string, docType: string, docId: string, entries: seq<Entry>,
                          id: Id)
    requires PeriodsOk(db.periods) && DocKey(t, docType, docId) !in db.locks
    ensures PostAnswers(db, t, d, entries, id, Answered(PostManual(db, t, d, source, docType, docId, entries, id)))
  {
    hide PeriodsOk, PayloadWrong, PayloadFine, AccountsWrong;
    hide AccountsFine, AccountFault, BalanceFault, PeriodFor, Clean;
    PayloadFaultIs(db, t, d, entries);
    AccountFaultIs(db, t, entries);
    assert BalanceFault(entries) == None ==> forall e :: e in entries ==> EntryCheck(e) by {
      BalanceFaultIs(entries);
      EntryCheckIs(entries);
    }
    FoundCovers(db, t, d);
  }

  lemma FoundCovers(db: Db, t: Id, d: int)
    ensures PeriodFor(db, t, d).Some? ==>
              PeriodFor(db, t, d).value in db.periods && Covers(db.periods[PeriodFor(db, t, d).value], t, d)
  {
  }

  /** create_journal answers a posted document with its journal and changes nothing; any other one
      is answered by its lines, its date and the accounts, and a refusal changes nothing. */
  lemma CreateJournalAnswers(guarded: bool, db: Db, c: Command)
    requires Inv(db) && c.CreateJournal?
    ensures var (after, r) := Step(guarded, db, c);
            var doc := DocKey(c.t, c.docType, c.docId);
            && (if doc in db.locks then r == Ok(db.locks[doc]) && after == db
                else PostAnswers(db, c.t, c.date, c.entries, c.id, r))
            && (r.Err? ==> after == db)
  {
    hide Inv, Sound, Projects, Step, PostManual, PostAnswers;
    StepShape(guarded, db, c);
    if DocKey(c.t, c.docType, c.docId) in db.locks {
      assert db.locks[DocKey(c.t, c.docType, c.docId)] in db.journals by { HeldLock(db,
          DocKey(c.t, c.docType, c.docId)); }
      LockedPost(guarded, db, c);
    } else {
      InvPeriods(db);
      PostManualAnswers(db, c.t, c.date, c.source, c.docType, c.docId, c.entries, c.id);
    }
  }

  lemma HeldLock(db: Db, doc: DocKey)
    requires Inv(db) && doc in db.locks
    ensures db.locks[doc] in db.journals
  {
    hide Sound, Projects;
    LockedJournal(db, doc);
  }

  lemma InvPeriods(db: Db)
    requires Inv(db)
    ensures PeriodsOk(db.periods)
  {
    hide Sound, Projects, PeriodsOk;
    SoundPeriodsJournals(db);
  }

  // ----- reverse_journal -----

  /** The account of a posted line requires a dimension that its reversing line will not have. */
  predicate NeedsMore(db: Db, l: Line) {
    l.entry.account in db.accounts &&
    var n := db.accounts[l.entry.account].needs;
    n.store || n.salesperson || n.vehicle || n.repairOrder || (n.department && !Filled(l.entry.dims.department))
  }

  predicate AnyInactive(db: Db, j: Id) {
    exists l :: l in db.lines && l.journal == j && l.entry.account in db.accounts
                && !db.accounts[l.entry.account].active
  }

  predicate AnyNeedsMore(db: Db, j: Id) {
    exists l :: l in db.lines && l.journal == j && NeedsMore(db, l)
  }

  /** The mirrored entries are the mirror images of the journal's lines, and those are known. */
  lemma MirrorOfLines(db: Db, t: Id, j: Id)
    requires LinesOk(db.lines, db.journals, db.accounts) && j in db.journals && db.journals[j].tenant == t
    ensures var mirrored := Mirrored(EntriesOf(db.lines, t, j), j);
            && (forall e :: e in mirrored ==> exists l :: l in db.lines && l.journal == j && e == Mirror(l.entry, j))
            && (forall l :: l in db.lines && l.journal == j ==> Mirror(l.entry, j) in mirrored)
            && AllKnown(db, t, mirrored)
  {
    var entries := EntriesOf(db.lines, t, j);
    var mirrored := Mirrored(entries, j);
    forall l | l in db.lines && l.journal == j
      ensures Mirror(l.entry, j) in mirrored
    {
      assert LineOk(db.journals, db.accounts, l) && l == Line(t, j, l.entry);
      EntriesOfIn(db.lines, t, j, l.entry);
      var i :| 0 <= i < |entries| && entries[i] == l.entry;
      assert mirrored[i] == Mirror(l.entry, j);
    }
    forall e | e in mirrored
      ensures KnownAccount(db, t, e.account) && exists l :: l in db.lines && l.journal == j && e == Mirror(l.entry, j)
    {
      var i :| 0 <= i < |entries| && e == Mirror(entries[i], j);
      EntriesOfIn(db.lines, t, j, entries[i]);
      assert Line(t, j, entries[i]) in db.lines && LineOk(db.journals, db.accounts, Line(t, j, entries[i]));
    }
  }

  lemma MirrorAccounts(db: Db, t: Id, j: Id)
    requires LinesOk(db.lines, db.journals, db.accounts) && j in db.journals && db.journals[j].tenant == t
    ensures var mirrored := Mirrored(EntriesOf(db.lines, t, j), j);
            && AllKnown(db, t, mirrored)
            && (AllActive(db, mirrored) <==> !AnyInactive(db, j))
            && (AllSupplied(db, mirrored) <==> !AnyNeedsMore(db, j))
  {
    MirrorOfLines(db, t, j);
    var mirrored := Mirrored(EntriesOf(db.lines, t, j), j);
    forall l | l in db.lines && l.journal == j
      ensures Mirror(l.entry, j) in mirrored && l.entry.account in db.accounts
      ensures Lacks(Mirror(l.entry, j).dims, db.accounts[l.entry.account].needs) <==> NeedsMore(db, l)
    {
      assert KnownAccount(db, t, Mirror(l.entry, j).account);
    }
    hide LinesOk, EntriesOf, Lacks, NeedsMore;
  }

  /** A reversal is answered by what is on the rows of the journal, its period, its document and
      its lines' accounts, in this order. */
  ghost predicate ReversalAnswers(db: Db, t: Id, j: Id, id: Id, r: Result<Id, Fault>) {
    if j !in db.journals || db.journals[j].tenant != t then r == Err(JournalNotFound)
    else if LinkKey(t, j) in db.links then r == Ok(db.links[LinkKey(t, j)])
    else if db.journals[j].period !in db.periods || db.periods[db.journals[j].period].status == Closed then
      r == Err(PeriodClosed)
    else if DocKey(t, "REVERSAL", j) in db.locks then r == Ok(db.locks[DocKey(t, "REVERSAL", j)])
    else if AnyInactive(db, j) then r == Err(AccountInactive)
    else if AnyNeedsMore(db, j) then r == Err(DimensionRequired)
    else if id in db.journals then r == Err(UniqueViolation)
    else r == Ok(id)
  }

  lemma ReverseJournalAnswers(guarded: bool, db: Db, t: Id, j: Id, id: Id)
    requires Inv(db)
    ensures var (after, r) := Step(guarded, db, ReverseJournal(t, j, id));
            ReversalAnswers(db, t, j, id, r) && (r.Err? ==> after == db)
  {
    hide Inv, Sound, Projects, Step, Reverse, PostManual, AnyInactive, AnyNeedsMore, PeriodFor, EntriesOf;
    StepShape(guarded, db, ReverseJournal(t, j, id));
    if j !in db.journals || db.journals[j].tenant != t {
      assert Reverse(db, t, j, id) == Err(JournalNotFound) by { NotOwn(db, t, j, id); }
    } else if LinkKey(t, j) in db.links {
      LinkedReversal(guarded, db, t, j, id);
    } else {
      FirstReversalAnswers(db, t, j, id);
    }
  }

  lemma NotOwn(db: Db, t: Id, j: Id, id: Id)
    requires j !in db.journals || db.journals[j].tenant != t
    ensures Reverse(db, t, j, id) == Err(JournalNotFound)
  {
  }

  lemma FirstReversalAnswers(db: Db, t: Id, j: Id, id: Id)
    requires Inv(db) && j in db.journals && db.journals[j].tenant == t && LinkKey(t, j) !in db.links
    ensures ReversalAnswers(db, t, j, id, Answered(Reverse(db, t, j, id)))
  {
    hide Sound, Projects, Reverse, PostManual, AnyInactive, AnyNeedsMore, PeriodFor, EntriesOf, PeriodsOk, JournalsOk;
    hide LinesOk, PayloadWrong, AllKnown, AllActive, AllSupplied, Clean;
    SoundPeriodsJournals(db);
    SoundLines(db);
    OwnPeriod(db, t, j);
    ReverseCases(db, t, j, id);
    var date, entries := db.journals[j].date, Mirrored(EntriesOf(db.lines, t, j), j);
    if DocKey(t, REVERSAL, j) in db.locks {
      HeldLock(db, DocKey(t, REVERSAL, j));
      LockedAnswers(db, t, date, REVERSAL, REVERSAL, j, entries, id);
    } else {
      PostManualAnswers(db, t, date, REVERSAL, REVERSAL, j, entries, id);
      MirrorAccounts(db, t, j);
      MirrorPayload(db, t, j);
    }
  }

  lemma LockedAnswers(db: Db, t: Id, d: int, source: string, docType: string, docId: string, entries: seq<Entry>,
                      id: Id)
    requires DocKey(t, docType, docId) in db.locks && db.locks[DocKey(t, docType, docId)] in db.journals
    ensures PostManual(db, t, d, source, docType, docId, entries, id) == Ok((db, db.locks[DocKey(t, docType, docId)]))
  {
  }

  lemma ReverseCases(db: Db, t: Id, j: Id, id: Id)
    requires j in db.journals && db.journals[j].tenant == t && LinkKey(t, j) !in db.links
    requires PeriodFor(db, t, db.journals[j].date) == Some(db.journals[j].period) && db.journals[j].period in db.periods
    ensures Answered(Reverse(db, t, j, id)) ==
            if db.periods[db.journals[j].period].status != Open then Err(PeriodClosed)
            else Answered(PostManual(db, t, db.journals[j].date, REVERSAL, REVERSAL, j,
                                     Mirrored(EntriesOf(db.lines, t, j), j), id))
  {
    hide PostManual, PeriodFor, EntriesOf;
  }

  /** The payload of a reversal into an open period is fine: it is balanced because its original is. */
  lemma MirrorPayload(db: Db, t: Id, j: Id)
    requires Sound(db) && j in db.journals && db.journals[j].tenant == t
    ensures var entries := Mirrored(EntriesOf(db.lines, t, j), j);
            PayloadFine(db, t, db.journals[j].date, entries)
            <==> IsOpen(db, db.journals[j].period)
  {
    hide Sound, PeriodsOk, JournalsOk, LinesOk, BalancedOk, PeriodFor, EntriesOf, BalancedEntries, PayloadFault;
    SoundPeriodsJournals(db);
    SoundLines(db);
    assert BalancedOk(db.lines) by { SoundBalanced(db); }
    MirrorBalanced(db, t, j);
    var entries := Mirrored(EntriesOf(db.lines, t, j), j);
    OwnPeriod(db, t, j);
    PayloadFaultExactly(db, t, db.journals[j].date, entries);
    PayloadFaultIs(db, t, db.journals[j].date, entries);
    OpenPeriodExactly(db, t, db.journals[j].date);
  }

  lemma SoundBalanced(db: Db)
    requires Sound(db)
    ensures BalancedOk(db.lines)
  {
    hide BalancedOk;
  }

  // ----- Requests that post nothing -----

  /** A request that leaves lines and journals alone commits its working copy as it is. */
  lemma QuietStep(guarded: bool, db: Db, c: Command)
    requires Inv(db) && Attempt(guarded, db, c).Ok?
    requires var work := Attempt(guarded, db, c).value.0; work.lines == db.lines && work.journals == db.journals
    ensures Step(guarded, db, c) == (Attempt(guarded, db, c).value.0, Ok(Attempt(guarded, db, c).value.1))
  {
    hide Sound, Projects, Attempt, Publish;
    AttemptSound(guarded, db, c);
    PublishNothing(db, Attempt(guarded, db, c).value.0);
  }

  lemma FailedStep(guarded: bool, db: Db, c: Command)
    requires Attempt(guarded, db, c).Err?
    ensures Step(guarded, db, c) == (db, Err(Attempt(guarded, db, c).error))
  {
    hide Attempt;
  }

  predicate FiveKinds(kind: string) {
    kind in {"ASSET", "LIABILITY", "EQUITY", "REVENUE", "EXPENSE"}
  }

  /** An account of one of the five types under an unused id and number is added as it is given. */
  lemma CreateAccountDoes(guarded: bool, db: Db, id: Id, a: Account)
    requires Inv(db)
    ensures Step(guarded, db, CreateAccount(id, a)) ==
            if !FiveKinds(a.kind) then (db, Err(CheckViolation))
            else if id in db.accounts
                    || exists b ::
                         b in db.accounts && db.accounts[b].tenant == a.tenant && db.accounts[b].number == a.number
            then (db, Err(UniqueViolation))
            else (db.(accounts := db.accounts[id := a]), Ok(id))
  {
    hide Inv, Step;
    if Attempt(guarded, db, CreateAccount(id, a)).Ok? {
      QuietStep(guarded, db, CreateAccount(id, a));
    } else {
      FailedStep(guarded, db, CreateAccount(id, a));
    }
  }

  predicate Takes<T(==)>(now: T, before: T, change: Option<T>) {
    now == match change case Some(v) => v case None => before
  }

  /** Every field that is given is taken over, every other one is kept, and no other row changes. */
  predicate Updates(a: Account, b: Account, kind: Option<string>, active: Option<bool>, c: NeedsChange) {
    && b.tenant == a.tenant && b.number == a.number && Takes(b.kind, a.kind, kind) && Takes(b.active, a.active, active)
    && Takes(b.needs.department, a.needs.department, c.department) && Takes(b.needs.store, a.needs.store, c.store)
    && Takes(b.needs.salesperson, a.needs.salesperson, c.salesperson)
    && Takes(b.needs.vehicle, a.needs.vehicle, c.vehicle)
    && Takes(b.needs.repairOrder, a.needs.repairOrder, c.repairOrder)
  }

  lemma ChangedUpdates(a: Account, kind: Option<string>, active: Option<bool>, c: NeedsChange)
    ensures Updates(a, a.(kind := Kept(kind, a.kind), active := Kept(active, a.active), needs := Changed(a.needs, c)),
                    kind, active, c)
  {
  }

  lemma UpdateAccountDoes(guarded: bool, db: Db, t: Id, id: Id, kind: Option<string>, active: Option<bool>,
                          needs: NeedsChange)
    requires Inv(db)
    ensures var (after, r) := Step(guarded, db, UpdateAccount(t, id, kind, active, needs));
            if id !in db.accounts || db.accounts[id].tenant != t then (after, r) == (db, Err(AccountNotFound))
            else if kind.Some? && !FiveKinds(kind.value) then (after, r) == (db, Err(CheckViolation))
            else
              && r == Ok(id) && id in after.accounts && after == db.(accounts := db.accounts[id := after.accounts[id]])
              && Updates(db.accounts[id], after.accounts[id], kind, active, needs)
  {
    hide Inv, Step, Updates, Changed;
    if id in db.accounts { ChangedUpdates(db.accounts[id], kind, active, needs); }
    if Attempt(guarded, db, UpdateAccount(t, id, kind, active, needs)).Ok? {
      QuietStep(guarded, db, UpdateAccount(t, id, kind, active, needs));
    } else {
      FailedStep(guarded, db, UpdateAccount(t, id, kind, active, needs));
    }
  }

  /** Closing and reopening work for the tenant's own period and no other; then the status is the
      one asked for, and nothing else changes. */
  lemma ClosePeriodDoes(guarded: bool, db: Db, t: Id, p: Id)
    requires Inv(db)
    ensures var (after, r) := Step(guarded, db, ClosePeriod(t, p));
            if p !in db.periods || db.periods[p].tenant != t then (after, r) == (db, Err(PeriodNotFound))
            else
              && r == Ok(p) && p in after.periods && after.periods[p].status == Closed
              && after.periods[p].(status := db.periods[p].status) == db.periods[p]
              && after == db.(periods := db.periods[p := after.periods[p]])
  {
    hide Inv, Step;
    if Attempt(guarded, db, ClosePeriod(t, p)).Ok? {
      QuietStep(guarded, db, ClosePeriod(t, p));
    } else {
      FailedStep(guarded, db, ClosePeriod(t, p));
    }
  }

  lemma OpenPeriodDoes(guarded: bool, db: Db, t: Id, p: Id)
    requires Inv(db)
    ensures var (after, r) := Step(guarded, db, OpenPeriod(t, p));
            if p !in db.periods || db.periods[p].tenant != t then (after, r) == (db, Err(PeriodNotFound))
            else
              && r == Ok(p) && p in after.periods && after.periods[p].status == Open
              && after.periods[p].(status := db.periods[p].status) == db.periods[p]
              && after == db.(periods := db.periods[p := after.periods[p]])
  {
    hide Inv, Step;
    if Attempt(guarded, db, OpenPeriod(t, p)).Ok? {
      QuietStep(guarded, db, OpenPeriod(t, p));
    } else {
      FailedStep(guarded, db, OpenPeriod(t, p));
    }
  }

  /** create_batch stores the payload as a draft, unless something is wrong with it or the id or
      the document is in use. */
  lemma CreateBatchDoes(guarded: bool, db: Db, doc: DocKey, source: string, date: int, entries: seq<Entry>, id: Id)
    requires Inv(db)
    ensures var (after, r) := Step(guarded, db, CreateBatch(doc, source, date, entries, id));
            if !PayloadFine(db, doc.tenant, date, entries) then
              after == db && r.Err? && PayloadWrong(db, doc.tenant, date, entries, r.error)
            else if id in db.batches || exists b :: b in db.batches && db.batches[b].doc == doc then
              (after, r) == (db, Err(UniqueViolation))
            else
              (after, r) == (db.(batches := db.batches[id := Batch(doc, source, Draft, date, entries, 1)]), Ok(id))
  {
    hide Inv, Step, PayloadFault, PayloadWrong, PayloadFine, PeriodsOk;
    InvPeriods(db);
    PayloadFaultIs(db, doc.tenant, date, entries);
    if Attempt(guarded, db, CreateBatch(doc, source, date, entries, id)).Ok? {
      QuietStep(guarded, db, CreateBatch(doc, source, date, entries, id));
    } else {
      FailedStep(guarded, db, CreateBatch(doc, source, date, entries, id));
    }
  }

  /** validate_batch looks at the stored payload again, stamps the batch and counts its version,
      and leaves a posted batch alone. */
  lemma CheckBatchDoes(guarded: bool, db: Db, t: Id, b: Id)
    requires Inv(db)
    ensures var (after, r) := Step(guarded, db, CheckBatch(t, b));
            if b !in db.batches || db.batches[b].doc.tenant != t then (after, r) == (db, Err(BatchNotFound))
            else
              var row := db.batches[b];
              if row.status == Posted then (after, r) == (db, Ok(b))
              else if !PayloadFine(db, t, row.date, row.entries) then
                after == db && r.Err? && PayloadWrong(db, t, row.date, row.entries, r.error)
              else
                && r == Ok(b) && after == db.(batches := after.batches)
                && after.batches
                   == db.batches[b := Batch(row.doc, row.source, Validated, row.date, row.entries, row.rowVersion + 1)]
  {
    hide Inv, Step, ValidateBatch, PayloadFault, PayloadWrong, PayloadFine, PeriodsOk;
    ValidateBatchCases(db, t, b);
    InvPeriods(db);
    if b in db.batches { PayloadFaultIs(db, t, db.batches[b].date, db.batches[b].entries); }
    if Attempt(guarded, db, CheckBatch(t, b)).Ok? {
      QuietStep(guarded, db, CheckBatch(t, b));
    } else {
      FailedStep(guarded, db, CheckBatch(t, b));
    }
  }

  lemma ValidateBatchCases(db: Db, t: Id, b: Id)
    ensures ValidateBatch(db, t, b) ==
            if b !in db.batches || db.batches[b].doc.tenant != t then Err(BatchNotFound)
            else
              var row := db.batches[b];
              var f := PayloadFault(db, t, row.date, row.entries);
              if row.status == Posted then Ok((db, b))
              else if f.Some? then Err(f.value)
              else Ok((db.(batches := db.batches[b := Batch(row.doc, row.source, Validated, row.date, row.entries,
                                                            row.rowVersion + 1)]), b))
  {
    hide PayloadFault;
  }

  // ----- The database behind the service -----

  /** The flush of a journal and its lines, whoever asks for it: the insert trigger wants an open
      period of the tenant that holds the date, and the CHECK constraints clean lines. */
  lemma FlushAnswers(db: Db, id: Id, j: Journal, entries: seq<Entry>)
    ensures var r := InsertJournal(db, id, j, entries);
            if id in db.journals then r == Err(UniqueViolation)
            else if j.period !in db.periods || !HoldsDate(db.periods[j.period], j.tenant, j.date)
                    || db.periods[j.period].status == Closed
            then r == Err(JournalTrigger)
            else if !Clean(entries) then r == Err(CheckViolation)
            else if DocKey(j.tenant, j.docType, j.docId) in db.locks then r == Err(UniqueViolation)
            else r.Ok?
  {
    EntryCheckIs(entries);
    hide Clean;
  }

  function DebitsOf(lines: seq<Line>, j: Id): int {
    if lines == [] then 0
    else
      var l := lines[|lines| - 1];
      DebitsOf(lines[..|lines| - 1], j) + if l.journal == j then l.entry.debit else 0
  }

  function CreditsOf(lines: seq<Line>, j: Id): int {
    if lines == [] then 0
    else
      var l := lines[|lines| - 1];
      CreditsOf(lines[..|lines| - 1], j) + if l.journal == j then l.entry.credit else 0
  }

  lemma {:induction false} NetIs(lines: seq<Line>, j: Id)
    ensures JournalNet(lines, j) == DebitsOf(lines, j) - CreditsOf(lines, j)
  {
    if lines != [] {
      NetIs(lines[..|lines| - 1], j);
    }
  }

  /** The deferred trigger rejects a commit exactly when a journal that got a line has unequal sides. */
  lemma CommitAnswers(work: Db, inserted: seq<Line>)
    ensures Publish(work, inserted).Err?
            <==> exists l :: l in inserted && DebitsOf(work.lines, l.journal) != CreditsOf(work.lines, l.journal)
    ensures Publish(work, inserted).Err? ==> Publish(work, inserted) == Err(BalanceTrigger)
  {
    hide JournalNet, DebitsOf, CreditsOf;
    forall l: Line
      ensures JournalNet(work.lines, l.journal) == DebitsOf(work.lines, l.journal) - CreditsOf(work.lines, l.journal)
    {
      NetIs(work.lines, l.journal);
    }
  }
}
