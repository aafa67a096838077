// The general ledger: its tables as one value, the database triggers, and what
// each service transaction does to the tables.
module Ledger {
  import opened Prelude
  import opened Sums
  import opened Calendar

  type Id = string

  // ----- Tables -----

  datatype Needs = Needs(department: bool, store: bool, salesperson: bool, vehicle: bool, repairOrder: bool)

  /** The requires_* fields of an account update, each given or not. */
  datatype NeedsChange = NeedsChange(department: Option<bool>, store: Option<bool>, salesperson: Option<bool>,
                                     vehicle: Option<bool>, repairOrder: Option<bool>)

  datatype Account = Account(tenant: Id, number: string, kind: string, active: bool, needs: Needs)

  datatype PeriodStatus = Open | Closed

  datatype Period = Period(tenant: Id, year: int, month: int, start: int, end: int, status: PeriodStatus)

  /** The immutable part of a journal row.  `order` is the number of journals that
      were there before it and stands for created_at; batch_id is kept apart. */
  datatype Journal = Journal(tenant: Id, date: int, period: Id, source: string, docType: string, docId: string,
                             order: nat)

  datatype Dims = Dims(department: Option<string>, store: Option<string>, salesperson: Option<string>,
                       vehicle: Option<string>, repairOrder: Option<string>)

  /** A journal line as a caller sends it (JournalLinePayload). */
  datatype Entry = Entry(account: Id, debit: int, credit: int, dims: Dims, reference: Option<string>)

  /** A stored row of journal_lines. */
  datatype Line = Line(tenant: Id, journal: Id, entry: Entry)

  datatype DocKey = DocKey(tenant: Id, docType: string, docId: string)

  datatype LinkKey = LinkKey(tenant: Id, original: Id)

  datatype BatchStatus = Draft | Validated | Posted

  datatype Batch = Batch(doc: DocKey, source: string, status: BatchStatus, date: int, entries: seq<Entry>,
                         rowVersion: nat)

  datatype BalanceKey = BalanceKey(tenant: Id, period: Id, account: Id)

  datatype Totals = Totals(debit: int, credit: int)

  datatype Db = Db(
    accounts: map<Id, Account>,
    periods: map<Id, Period>,
    journals: map<Id, Journal>,
    batchOf: map<Id, Id>,            // the batch_id column of journals, absent for NULL
    lines: seq<Line>,                // in insertion order
    locks: map<DocKey, Id>,
    links: map<LinkKey, Id>,         // reversal_links: original to reversal
    batches: map<Id, Batch>,
    balances: map<BalanceKey, Totals>)

  const EMPTY_DB := Db(map[], map[], map[], map[], [], map[], map[], map[], map[])

  /** Raised errors: the service's own codes first, then what the database raises. */
  datatype Fault =
    | InvalidAmount | InvalidLine | Unbalanced | NoPeriod | PeriodClosed
    | AccountMissing | AccountInactive | DimensionRequired
    | LockCorrupt | JournalNotFound | ReversalCorrupt | BatchNotFound | BatchCorrupt
    | PeriodNotFound | AccountNotFound | InvalidYear
    | UniqueViolation | CheckViolation | JournalTrigger | BalanceTrigger | ImmutableTable

  // ----- Lines and sums -----

  function Rows(t: Id, j: Id, entries: seq<Entry>): (rows: seq<Line>)
    ensures |rows| == |entries|
    ensures forall i :: 0 <= i < |rows| ==> rows[i] == Line(t, j, entries[i])
  {
    seq(|entries|, i requires 0 <= i < |entries| => Line(t, j, entries[i]))
  }

  /** The entries of one journal, in insertion order (the two-column query of the service). */
  function EntriesOf(lines: seq<Line>, t: Id, j: Id): seq<Entry> {
    if lines == [] then []
    else
      var n := |lines| - 1;
      EntriesOf(lines[..n], t, j) + if lines[n].tenant == t && lines[n].journal == j then [lines[n].entry] else []
  }

  function DebitIf(p: Line -> bool): Line -> int {
    (l: Line) => if p(l) then l.entry.debit else 0
  }

  function CreditIf(p: Line -> bool): Line -> int {
    (l: Line) => if p(l) then l.entry.credit else 0
  }

  function NetIf(p: Line -> bool): Line -> int {
    (l: Line) => if p(l) then l.entry.debit - l.entry.credit else 0
  }

  function OfJournal(j: Id): Line -> bool {
    (l: Line) => l.journal == j
  }

  function JournalNet(lines: seq<Line>, j: Id): int {
    Sum(lines, NetIf(OfJournal(j)))
  }

  function EntryDebit(): Entry -> int { (e: Entry) => e.debit }

  function EntryCredit(): Entry -> int { (e: Entry) => e.credit }

  // ----- Checks of the service -----

  function LineFault(e: Entry): Option<Fault> {
    if e.debit < 0 || e.credit < 0 then Some(InvalidAmount)
    else if e.debit > 0 && e.credit > 0 then Some(InvalidLine)
    else None
  }

  /** The fault of the first faulty line. */
  function FirstFault(entries: seq<Entry>): (r: Option<Fault>)
    ensures r in {None, Some(InvalidAmount), Some(InvalidLine)}
  {
    if entries == [] then None
    else
      var rest := FirstFault(entries[..|entries| - 1]);
      if rest.Some? then rest else LineFault(entries[|entries| - 1])
  }

  function BalanceFault(entries: seq<Entry>): Option<Fault> {
    if FirstFault(entries).Some? then FirstFault(entries)
    else if Sum(entries, EntryDebit()) != Sum(entries, EntryCredit()) then Some(Unbalanced)
    else None
  }

  predicate Covers(p: Period, t: Id, d: int) {
    p.tenant == t && p.start <= d <= p.end
  }

  ghost function PeriodFor(db: Db, t: Id, d: int): Option<Id> {
    if exists p :: p in db.periods && Covers(db.periods[p], t, d) then
      var p :| p in db.periods && Covers(db.periods[p], t, d);
      Some(p)
    else None
  }

  /** A falsy value, None or the empty string, counts as not given. */
  predicate Given(o: Option<string>) {
    o.Some? && o.value != ""
  }

  predicate Supplies(d: Dims, n: Needs) {
    && (n.department ==> Given(d.department))
    && (n.store ==> Given(d.store))
    && (n.salesperson ==> Given(d.salesperson))
    && (n.vehicle ==> Given(d.vehicle))
    && (n.repairOrder ==> Given(d.repairOrder))
  }

  predicate OwnAccount(db: Db, t: Id, a: Id) {
    a in db.accounts && db.accounts[a].tenant == t
  }

  function AccountFault(db: Db, t: Id, entries: seq<Entry>): Option<Fault> {
    if exists e :: e in entries && !OwnAccount(db, t, e.account) then Some(AccountMissing)
    else if exists e :: e in entries && !db.accounts[e.account].active then Some(AccountInactive)
    else if exists e :: e in entries && !Supplies(e.dims, db.accounts[e.account].needs) then Some(DimensionRequired)
    else None
  }

  // ----- Database: constraints and triggers -----

  /** fn_validate_journal_insert. */
  predicate InsertTriggerAccepts(db: Db, j: Journal) {
    && j.period in db.periods
    && Covers(db.periods[j.period], j.tenant, j.date)
    && db.periods[j.period].status == Open
  }

  /** The three CHECK constraints of journal_lines. */
  predicate EntryCheck(e: Entry) {
    e.debit >= 0 && e.credit >= 0 && !(e.debit > 0 && e.credit > 0)
  }

  function DocOf(j: Journal): DocKey {
    DocKey(j.tenant, j.docType, j.docId)
  }

  /** The flush of a journal, its lines and its posting lock. */
  function InsertJournal(db: Db, id: Id, j: Journal, entries: seq<Entry>): Result<Db, Fault> {
    if id in db.journals then Err(UniqueViolation)
    else if !InsertTriggerAccepts(db, j) then Err(JournalTrigger)
    else if exists e :: e in entries && !EntryCheck(e) then Err(CheckViolation)
    else if DocOf(j) in db.locks then Err(UniqueViolation)
    else Ok(WithJournal(db, id, j, entries))
  }

  function WithJournal(db: Db, id: Id, j: Journal, entries: seq<Entry>): Db {
    db.(journals := db.journals[id := j],
        lines := db.lines + Rows(j.tenant, id, entries),
        locks := db.locks[DocOf(j) := id])
  }

  function PeriodOf(journals: map<Id, Journal>, j: Id): Id {
    if j in journals then journals[j].period else ""
  }

  function BalanceKeyOf(journals: map<Id, Journal>, l: Line): BalanceKey {
    BalanceKey(l.tenant, PeriodOf(journals, l.journal), l.entry.account)
  }

  /** fn_apply_balances for one inserted line. */
  function Upsert(balances: map<BalanceKey, Totals>, k: BalanceKey, e: Entry): map<BalanceKey, Totals> {
    if k in balances then
      balances[k := Totals(balances[k].debit + e.debit, balances[k].credit + e.credit)]
    else
      balances[k := Totals(e.debit, e.credit)]
  }

  function ApplyBalances(balances: map<BalanceKey, Totals>, journals: map<Id, Journal>, inserted: seq<Line>)
    : map<BalanceKey, Totals>
  {
    if inserted == [] then balances
    else
      var l := inserted[|inserted| - 1];
      Upsert(ApplyBalances(balances, journals, inserted[..|inserted| - 1]), BalanceKeyOf(journals, l), l.entry)
  }

  /** COMMIT: the deferred triggers of the inserted lines run, the balance check
      and the balance projection; any rejection loses the transaction. */
  function Publish(work: Db, inserted: seq<Line>): Result<Db, Fault> {
    if exists l :: l in inserted && JournalNet(work.lines, l.journal) != 0 then Err(BalanceTrigger)
    else Ok(work.(balances := ApplyBalances(work.balances, work.journals, inserted)))
  }

  // ----- Service transactions -----

  const REVERSAL := "REVERSAL"
  const BATCH := "BATCH"

  ghost function PostManual(db: Db, t: Id, date: int, source: string, docType: string, docId: string,
                            entries: seq<Entry>, id: Id): Result<(Db, Id), Fault>
  {
    var doc := DocKey(t, docType, docId);
    if doc in db.locks then
      if db.locks[doc] in db.journals then Ok((db, db.locks[doc])) else Err(LockCorrupt)
    else if BalanceFault(entries).Some? then Err(BalanceFault(entries).value)
    else if PeriodFor(db, t, date).None? then Err(NoPeriod)
    else
      var p := PeriodFor(db, t, date).value;
      if db.periods[p].status != Open then Err(PeriodClosed)
      else if AccountFault(db, t, entries).Some? then Err(AccountFault(db, t, entries).value)
      else
        var r := InsertJournal(db, id, Journal(t, date, p, source, docType, docId, |db.journals|), entries);
        if r.Ok? then Ok((r.value, id)) else Err(r.error)
  }

  function Mirror(e: Entry, j: Id): Entry {
    Entry(e.account, e.credit, e.debit, Dims(e.dims.department, None, None, None, None), Some("REVERSAL of " + j))
  }

  function Mirrored(entries: seq<Entry>, j: Id): (r: seq<Entry>)
    ensures |r| == |entries|
    ensures forall i :: 0 <= i < |r| ==> r[i] == Mirror(entries[i], j)
  {
    seq(|entries|, i requires 0 <= i < |entries| => Mirror(entries[i], j))
  }

  ghost function Reverse(db: Db, t: Id, j: Id, id: Id): Result<(Db, Id), Fault> {
    if j !in db.journals || db.journals[j].tenant != t then Err(JournalNotFound)
    else if LinkKey(t, j) in db.links then
      if db.links[LinkKey(t, j)] in db.journals then Ok((db, db.links[LinkKey(t, j)])) else Err(ReversalCorrupt)
    else
      var date := db.journals[j].date;
      if PeriodFor(db, t, date).None? then Err(NoPeriod)
      else if db.periods[PeriodFor(db, t, date).value].status != Open then Err(PeriodClosed)
      else
        var r := PostManual(db, t, date, REVERSAL, REVERSAL, j, Mirrored(EntriesOf(db.lines, t, j), j), id);
        if r.Err? then Err(r.error)
        else Ok((r.value.0.(links := r.value.0.links[LinkKey(t, j) := r.value.1]), r.value.1))
  }

  /** The checks shared by create_batch and validate_batch. */
  ghost function PayloadFault(db: Db, t: Id, date: int, entries: seq<Entry>): Option<Fault> {
    if BalanceFault(entries).Some? then BalanceFault(entries)
    else if PeriodFor(db, t, date).None? then Some(NoPeriod)
    else if db.periods[PeriodFor(db, t, date).value].status != Open then Some(PeriodClosed)
    else None
  }

  ghost function DraftBatch(db: Db, doc: DocKey, source: string, date: int, entries: seq<Entry>, id: Id)
    : Result<(Db, Id), Fault>
  {
    if PayloadFault(db, doc.tenant, date, entries).Some? then Err(PayloadFault(db, doc.tenant, date, entries).value)
    else if id in db.batches || exists b :: b in db.batches && db.batches[b].doc == doc then Err(UniqueViolation)
    else Ok((db.(batches := db.batches[id := Batch(doc, source, Draft, date, entries, 1)]), id))
  }

  predicate OwnBatch(db: Db, t: Id, b: Id) {
    b in db.batches && db.batches[b].doc.tenant == t
  }

  function Restamp(db: Db, b: Id, status: BatchStatus): Db
    requires b in db.batches
  {
    var row := db.batches[b];
    db.(batches := db.batches[b := row.(status := status, rowVersion := row.rowVersion + 1)])
  }

  ghost function ValidateBatch(db: Db, t: Id, b: Id): Result<(Db, Id), Fault> {
    if !OwnBatch(db, t, b) then Err(BatchNotFound)
    else
      var row := db.batches[b];
      if row.status == Posted then Ok((db, b))
      else if PayloadFault(db, t, row.date, row.entries).Some? then
        Err(PayloadFault(db, t, row.date, row.entries).value)
      else Ok((Restamp(db, b, Validated), b))
  }

  /** The journal that carries batch b in its batch_id column. */
  ghost function JournalOfBatch(db: Db, t: Id, b: Id): Option<Id> {
    if exists j :: j in db.journals && db.journals[j].tenant == t && j in db.batchOf && db.batchOf[j] == b then
      var j :| j in db.journals && db.journals[j].tenant == t && j in db.batchOf && db.batchOf[j] == b;
      Some(j)
    else None
  }

  /** post_batch.  The ORM emits an UPDATE of journals only when batch_id changes;
      with `guarded`, fn_block_mutation is installed on that table and rejects it. */
  ghost function PostBatch(guarded: bool, db: Db, t: Id, b: Id, id: Id): Result<(Db, Id), Fault> {
    if !OwnBatch(db, t, b) then Err(BatchNotFound)
    else if db.batches[b].status == Posted then
      var j := JournalOfBatch(db, t, b);
      if j.Some? then Ok((db, j.value)) else Err(BatchCorrupt)
    else
      var v := ValidateBatch(db, t, b);
      if v.Err? then Err(v.error)
      else
        var row := v.value.0.batches[b];
        var r := PostManual(v.value.0, t, row.date, row.source, BATCH, b, row.entries, id);
        if r.Err? then Err(r.error)
        else
          var (work, j) := r.value;
          if guarded && !(j in work.batchOf && work.batchOf[j] == b) then Err(ImmutableTable)
          else Ok((Restamp(work, b, Posted).(batchOf := work.batchOf[j := b]), j))
  }

  /** seed_year over the months 1..m, with ids(m) as the id minted for month m. */
  function SeedMonths(db: Db, t: Id, y: int, m: nat, ids: nat -> Id): Result<Db, Fault>
    requires m <= 12
  {
    if m == 0 then Ok(db)
    else
      var r := SeedMonths(db, t, y, m - 1, ids);
      if r.Err? then r
      else if HasMonth(r.value, t, y, m) then r
      else if ids(m) in r.value.periods then Err(UniqueViolation)
      else
        var p := Period(t, y, m, Ordinal(y, m, 1), Ordinal(y, m, DaysInMonth(y, m)), Open);
        Ok(r.value.(periods := r.value.periods[ids(m) := p]))
  }

  predicate HasMonth(db: Db, t: Id, y: int, m: int) {
    exists p :: p in db.periods && db.periods[p].tenant == t && db.periods[p].year == y && db.periods[p].month == m
  }

  function SetStatus(db: Db, t: Id, p: Id, status: PeriodStatus): Result<Db, Fault> {
    if p !in db.periods || db.periods[p].tenant != t then Err(PeriodNotFound)
    else Ok(db.(periods := db.periods[p := db.periods[p].(status := status)]))
  }

  /** ck_acct_account_type. */
  predicate KnownKind(kind: string) {
    kind == "ASSET" || kind == "LIABILITY" || kind == "EQUITY" || kind == "REVENUE" || kind == "EXPENSE"
  }

  function AddAccount(db: Db, id: Id, a: Account): Result<Db, Fault> {
    if !KnownKind(a.kind) then Err(CheckViolation)
    else if id in db.accounts
            || exists b :: b in db.accounts && db.accounts[b].tenant == a.tenant && db.accounts[b].number == a.number
    then Err(UniqueViolation)
    else Ok(db.(accounts := db.accounts[id := a]))
  }

  function Kept<T>(change: Option<T>, now: T): T {
    if change.Some? then change.value else now
  }

  function Changed(n: Needs, c: NeedsChange): Needs {
    Needs(Kept(c.department, n.department), Kept(c.store, n.store), Kept(c.salesperson, n.salesperson),
          Kept(c.vehicle, n.vehicle), Kept(c.repairOrder, n.repairOrder))
  }

  function EditAccount(db: Db, t: Id, id: Id, kind: Option<string>, active: Option<bool>, needs: NeedsChange)
    : Result<Db, Fault>
  {
    if !OwnAccount(db, t, id) then Err(AccountNotFound)
    else if kind.Some? && !KnownKind(kind.value) then Err(CheckViolation)
    else
      var a := db.accounts[id];
      Ok(db.(accounts := db.accounts[id := a.(kind := Kept(kind, a.kind), active := Kept(active, a.active),
                                              needs := Changed(a.needs, needs))]))
  }

  // ----- Endpoints as commands -----

  datatype Command =
    | CreateAccount(id: Id, account: Account)
    | UpdateAccount(t: Id, id: Id, kind: Option<string>, active: Option<bool>, needs: NeedsChange)
    | SeedYear(t: Id, year: int, ids: nat -> Id)
    | ClosePeriod(t: Id, period: Id)
    | OpenPeriod(t: Id, period: Id)
    | CreateJournal(t: Id, date: int, source: string, docType: string, docId: string, entries: seq<Entry>, id: Id)
    | ReverseJournal(t: Id, journal: Id, id: Id)
    | CreateBatch(doc: DocKey, source: string, date: int, entries: seq<Entry>, id: Id)
    | CheckBatch(t: Id, batch: Id)
    | FinishBatch(t: Id, batch: Id, id: Id)

  function Tagged(r: Result<Db, Fault>, id: Id): Result<(Db, Id), Fault> {
    if r.Ok? then Ok((r.value, id)) else Err(r.error)
  }

  /** What a command has done to the working copy when its block ends. */
  ghost function Attempt(guarded: bool, db: Db, c: Command): Result<(Db, Id), Fault> {
    match c
    case CreateAccount(id, a) => Tagged(AddAccount(db, id, a), id)
    case UpdateAccount(t, id, kind, active, needs) => Tagged(EditAccount(db, t, id, kind, active, needs), id)
    case SeedYear(t, y, ids) =>
      if !(FIRST_YEAR <= y <= LAST_YEAR) then Err(InvalidYear)
      else Tagged(SeedMonths(db, t, y, 12, ids), t)
    case ClosePeriod(t, p) => Tagged(SetStatus(db, t, p, Closed), p)
    case OpenPeriod(t, p) => Tagged(SetStatus(db, t, p, Open), p)
    case CreateJournal(t, date, source, docType, docId, entries, id) =>
      PostManual(db, t, date, source, docType, docId, entries, id)
    case ReverseJournal(t, j, id) => Reverse(db, t, j, id)
    case CreateBatch(doc, source, date, entries, id) => DraftBatch(db, doc, source, date, entries, id)
    case CheckBatch(t, b) => ValidateBatch(db, t, b)
    case FinishBatch(t, b, id) => PostBatch(guarded, db, t, b, id)
  }

  /** A post that succeeds either hands back the locked journal or inserts a new one. */
  lemma PostManualOutcome(db: Db, t: Id, date: int, source: string, docType: string, docId: string,
                          entries: seq<Entry>, id: Id)
    requires PostManual(db, t, date, source, docType, docId, entries, id).Ok?
    ensures var (work, j) := PostManual(db, t, date, source, docType, docId, entries, id).value;
            var doc := DocKey(t, docType, docId);
            if doc in db.locks then work == db && j == db.locks[doc] && j in db.journals
            else
              && PeriodFor(db, t, date).Some?
              && var row := Journal(t, date, PeriodFor(db, t, date).value, source, docType, docId, |db.journals|);
              && work == WithJournal(db, id, row, entries) && j == id
              && id !in db.journals && InsertTriggerAccepts(db, row)
              && BalanceFault(entries).None? && AccountFault(db, t, entries).None?
              && (forall e :: e in entries ==> EntryCheck(e))
  {
  }

  lemma AttemptAppends(guarded: bool, db: Db, c: Command)
    requires Attempt(guarded, db, c).Ok?
    ensures db.lines <= Attempt(guarded, db, c).value.0.lines
    ensures Attempt(guarded, db, c).value.0.balances == db.balances
  {
    hide PostManual, Reverse, PostBatch, SeedMonths, PayloadFault, PeriodFor, WithJournal;
    match c
    case SeedYear(t, y, ids) => SeedKeepsLedger(db, t, y, 12, ids);
    case CreateJournal(t, date, source, docType, docId, entries, id) =>
      PostAppends(db, t, date, source, docType, docId, entries, id);
    case ReverseJournal(t, j, id) => ReverseAppends(db, t, j, id);
    case FinishBatch(t, b, id) => PostBatchAppends(guarded, db, t, b, id);
    case _ =>
  }

  lemma PostAppends(db: Db, t: Id, date: int, source: string, docType: string, docId: string, entries: seq<Entry>,
                    id: Id)
    requires PostManual(db, t, date, source, docType, docId, entries, id).Ok?
    ensures var work := PostManual(db, t, date, source, docType, docId, entries, id).value.0;
            db.lines <= work.lines && work.balances == db.balances
  {
    hide PostManual;
    PostManualOutcome(db, t, date, source, docType, docId, entries, id);
  }

  lemma ReverseAppends(db: Db, t: Id, j: Id, id: Id)
    requires Reverse(db, t, j, id).Ok?
    ensures db.lines <= Reverse(db, t, j, id).value.0.lines
    ensures Reverse(db, t, j, id).value.0.balances == db.balances
  {
    if LinkKey(t, j) !in db.links {
      PostManualOutcome(db, t, db.journals[j].date, REVERSAL, REVERSAL, j, Mirrored(EntriesOf(db.lines, t, j), j), id);
    }
  }

  /** A post of a batch that was not posted yet: validated, its journal in, then stamped. */
  lemma PostBatchOutcome(guarded: bool, db: Db, t: Id, b: Id, id: Id)
    requires PostBatch(guarded, db, t, b, id).Ok? && db.batches[b].status != Posted
    ensures OwnBatch(db, t, b)
    ensures var v, row := Restamp(db, b, Validated), db.batches[b];
            var r := PostManual(v, t, row.date, row.source, BATCH, b, row.entries, id);
            && PayloadFault(db, t, row.date, row.entries).None?
            && r.Ok? && b in r.value.0.batches
            && (guarded ==> r.value.1 in r.value.0.batchOf && r.value.0.batchOf[r.value.1] == b)
            && PostBatch(guarded, db, t, b, id).value ==
                 (Restamp(r.value.0, b, Posted).(batchOf := r.value.0.batchOf[r.value.1 := b]), r.value.1)
  {
    hide PayloadFault;
    var v, row := Restamp(db, b, Validated), db.batches[b];
    PostManualOutcome(v, t, row.date, row.source, BATCH, b, row.entries, id);
  }

  lemma PostBatchAppends(guarded: bool, db: Db, t: Id, b: Id, id: Id)
    requires PostBatch(guarded, db, t, b, id).Ok?
    ensures db.lines <= PostBatch(guarded, db, t, b, id).value.0.lines
    ensures PostBatch(guarded, db, t, b, id).value.0.balances == db.balances
  {
    hide PayloadFault, PostManual;
    if db.batches[b].status != Posted {
      PostBatchOutcome(guarded, db, t, b, id);
      var row := db.batches[b];
      PostManualOutcome(Restamp(db, b, Validated), t, row.date, row.source, BATCH, b, row.entries, id);
    }
  }

  lemma {:induction false} SeedKeepsLedger(db: Db, t: Id, y: int, m: nat, ids: nat -> Id)
    requires m <= 12
    requires SeedMonths(db, t, y, m, ids).Ok?
    ensures SeedMonths(db, t, y, m, ids).value == db.(periods := SeedMonths(db, t, y, m, ids).value.periods)
  {
    if m > 0 {
      SeedKeepsLedger(db, t, y, m - 1, ids);
    }
  }

  /** One request: commit on success, and on any error the tables are as before. */
  ghost function Step(guarded: bool, db: Db, c: Command): (Db, Result<Id, Fault>) {
    var a := Attempt(guarded, db, c);
    if a.Err? then (db, Err(a.error))
    else
      AttemptAppends(guarded, db, c);
      var r := Publish(a.value.0, a.value.0.lines[|db.lines|..]);
      if r.Err? then (db, Err(r.error)) else (r.value, Ok(a.value.1))
  }
}
