// When a reversal cancels its original: the exact condition on the ledger before it, and
// that the answer holds in every report of every later ledger.
module LedgerCancellation {
  import opened Prelude
  import opened Sums
  import opened Ledger
  import opened LedgerInvariant
  import opened LedgerRuns
  import opened LedgerHistory
  import opened LedgerDocuments
  import opened Reports

  /** In every report, under every filter, the net of every account and of every department
      of it is what it would be without the two journals. */
  ghost predicate Cancel(db: Db, j: Id, r: Id) {
    forall f, a, dept ::
      Sum(db.lines, NetWithout(db, f, a, dept, {})) == Sum(db.lines, NetWithout(db, f, a, dept, {j, r}))
  }

  /** The entries come to nothing on each account and department they name. */
  predicate Nil(entries: seq<Entry>) {
    forall e :: e in entries ==>
      && Sum(entries, Slice(e.account, None)) == 0
      && Sum(entries, Slice(e.account, Some(e.dims.department))) == 0
  }

  /** Together the journals come to nothing, and they do so on one day unless each does alone. */
  predicate Opposite(db: Db, t: Id, j: Id, r: Id)
    requires j in db.journals && r in db.journals
  {
    && Nil(EntriesOf(db.lines, t, j) + EntriesOf(db.lines, t, r))
    && (db.journals[j].date == db.journals[r].date || Nil(EntriesOf(db.lines, t, j)))
  }

  /** What a caller can look up before a first reversal of j: nobody has taken its document,
      or the journal that took it is opposite to j. */
  predicate WillCancel(db: Db, t: Id, j: Id) {
    var doc := DocKey(t, REVERSAL, j);
    j in db.journals && (doc in db.locks ==> db.locks[doc] in db.journals && Opposite(db, t, j, db.locks[doc]))
  }

  // ----- Two journals -----

  lemma NilExactlyWhen(entries: seq<Entry>)
    ensures Nil(entries) <==> forall a, dept :: Sum(entries, Slice(a, dept)) == 0
  {
    if Nil(entries) {
      forall a, dept ensures Sum(entries, Slice(a, dept)) == 0 {
        if e :| e in entries && e.account == a && (dept.Some? ==> e.dims.department == dept.value) {
          assert dept == None || dept == Some(e.dims.department);
        } else {
          SumZero(entries, Slice(a, dept));
        }
      }
    }
  }

  function Net(db: Db, t: Id, j: Id, a: Id, dept: Option<Option<string>>): int {
    Sum(EntriesOf(db.lines, t, j), Slice(a, dept))
  }

  ghost predicate OppositeNets(db: Db, t: Id, j: Id, r: Id)
    requires j in db.journals && r in db.journals
  {
    && (forall a, dept :: Net(db, t, j, a, dept) + Net(db, t, r, a, dept) == 0)
    && (db.journals[j].date == db.journals[r].date || forall a, dept :: Net(db, t, j, a, dept) == 0)
  }

  lemma OppositeIsOfNets(db: Db, t: Id, j: Id, r: Id)
    requires j in db.journals && r in db.journals
    ensures Opposite(db, t, j, r) <==> OppositeNets(db, t, j, r)
  {
    hide Nil, Sum, EntriesOf;
    var p, q := EntriesOf(db.lines, t, j), EntriesOf(db.lines, t, r);
    NilExactlyWhen(p);
    NilExactlyWhen(p + q);
    forall a, dept ensures Sum(p + q, Slice(a, dept)) == Net(db, t, j, a, dept) + Net(db, t, r, a, dept) {
      SumConcat(p, q, Slice(a, dept));
    }
  }

  /** What a journal adds to a report. */
  function Adds(db: Db, f: Filter, a: Id, dept: Option<Option<string>>, j: Id): int
    requires j in db.journals
  {
    if Matches(f, db.journals[j]) then Net(db, db.journals[j].tenant, j, a, dept) else 0
  }

  ghost predicate NothingAdded(db: Db, j: Id, r: Id)
    requires j in db.journals && r in db.journals
  {
    forall f, a, dept :: Adds(db, f, a, dept, j) + (if r == j then 0 else Adds(db, f, a, dept, r)) == 0
  }

  lemma TakenOut(db: Db, f: Filter, a: Id, dept: Option<Option<string>>, j: Id, r: Id)
    requires LinesOk(db.lines, db.journals, db.accounts) && j in db.journals && r in db.journals
    ensures Sum(db.lines, NetWithout(db, f, a, dept, {}))
              == Sum(db.lines, NetWithout(db, f, a, dept, {j, r}))
               + Adds(db, f, a, dept, j) + if r == j then 0 else Adds(db, f, a, dept, r)
  {
    hide LinesOk, Sum, Matches, NetWithout, EntriesOf;
    Excluding(db, f, a, dept, {}, j);
    EntriesSum(db.lines, db.journals[j].tenant, j, Slice(a, dept));
    if r == j {
      assert {} + {j} == {j, r};
    } else {
      Excluding(db, f, a, dept, {} + {j}, r);
      EntriesSum(db.lines, db.journals[r].tenant, r, Slice(a, dept));
      assert {} + {j} + {r} == {j, r};
    }
  }

  lemma CancelIsNothingAdded(db: Db, j: Id, r: Id)
    requires LinesOk(db.lines, db.journals, db.accounts) && j in db.journals && r in db.journals
    ensures Cancel(db, j, r) <==> NothingAdded(db, j, r)
  {
    hide LinesOk, Sum, NetWithout, Adds;
    forall f, a, dept
      ensures Sum(db.lines, NetWithout(db, f, a, dept, {})) == Sum(db.lines, NetWithout(db, f, a, dept, {j, r}))
              <==> Adds(db, f, a, dept, j) + (if r == j then 0 else Adds(db, f, a, dept, r)) == 0
    {
      TakenOut(db, f, a, dept, j, r);
    }
  }

  /** So each row of every trial balance nets to what it would without the two. */
  lemma CancelInTrialBalance(db: Db, f: Filter, j: Id, r: Id, a: Id)
    requires Cancel(db, j, r) && a in TrialBalance(db, f)
    ensures var row := TrialBalance(db, f)[a];
            row.debit - row.credit == Sum(db.lines, NetWithout(db, f, a, None, {j, r}))
  {
    NetIsDebitLessCredit(db.lines, ForAccount(db, f, a));
    var rows, all := NetIf(ForAccount(db, f, a)), NetWithout(db, f, a, None, {});
    forall l | l in db.lines ensures rows(l) == all(l) {
      var net := Slice(a, None)(l.entry);
      assert all(l) == if IsSelected(db, f, l) then net else 0;
      assert net == if l.entry.account == a then l.entry.debit - l.entry.credit else 0;
      assert ForAccount(db, f, a)(l) == (IsSelected(db, f, l) && l.entry.account == a);
    }
    SumCong(db.lines, rows, all);
  }

  lemma SameDaySamePeriod(db: Db, j: Id, r: Id)
    requires PeriodsOk(db.periods) && JournalsOk(db.journals, db.periods) && j in db.journals && r in db.journals
    requires db.journals[j].tenant == db.journals[r].tenant && db.journals[j].date == db.journals[r].date
    ensures db.journals[j].period == db.journals[r].period
  {
    hide PeriodsOk;
    var p, q := db.journals[j], db.journals[r];
    assert JournalOk(db.periods, p) && JournalOk(db.periods, q);
    CoverUnique(db.periods, p.tenant, p.date, p.period, q.period);
  }

  /** The unfiltered report shows that the nets are opposite, and the report as of the earlier
      date that the dates agree unless nothing is there to see. */
  lemma NothingAddedThenOpposite(db: Db, t: Id, j: Id, r: Id)
    requires j in db.journals && r in db.journals && NothingAdded(db, j, r)
    requires db.journals[j].tenant == t && db.journals[r].tenant == t
    ensures OppositeNets(db, t, j, r)
  {
    hide Net;
    var d, e := db.journals[j].date, db.journals[r].date;
    var asOf := Filter(t, None, Some(if d < e then d else e));
    forall a, dept
      ensures Net(db, t, j, a, dept) + Net(db, t, r, a, dept) == 0
      ensures d == e || Net(db, t, j, a, dept) == 0
    {
      assert Adds(db, Filter(t, None, None), a, dept, j)
           + (if r == j then 0 else Adds(db, Filter(t, None, None), a, dept, r)) == 0;
      assert Adds(db, asOf, a, dept, j) + (if r == j then 0 else Adds(db, asOf, a, dept, r)) == 0;
    }
  }

  lemma OppositeThenNothingAdded(db: Db, t: Id, j: Id, r: Id)
    requires j in db.journals && r in db.journals && OppositeNets(db, t, j, r)
    requires db.journals[j].tenant == t && db.journals[r].tenant == t
    requires db.journals[j].date == db.journals[r].date ==> db.journals[j].period == db.journals[r].period
    ensures NothingAdded(db, j, r)
  {
    hide Net;
    forall f, a, dept ensures Adds(db, f, a, dept, j) + (if r == j then 0 else Adds(db, f, a, dept, r)) == 0 {
      assert Net(db, t, j, a, dept) + Net(db, t, r, a, dept) == 0;
    }
  }

  /** Two journals of one tenant cancel in every report exactly when they are opposite. */
  lemma CancelExactlyWhen(db: Db, t: Id, j: Id, r: Id)
    requires Sound(db) && j in db.journals && r in db.journals
    requires db.journals[j].tenant == t && db.journals[r].tenant == t
    ensures Cancel(db, j, r) <==> Opposite(db, t, j, r)
  {
    hide Sound, Cancel, Opposite, OppositeNets, NothingAdded, LinesOk, PeriodsOk, JournalsOk;
    SoundLines(db);
    SoundPeriodsJournals(db);
    CancelIsNothingAdded(db, j, r);
    OppositeIsOfNets(db, t, j, r);
    if NothingAdded(db, j, r) {
      NothingAddedThenOpposite(db, t, j, r);
    } else if OppositeNets(db, t, j, r) {
      if db.journals[j].date == db.journals[r].date { SameDaySamePeriod(db, j, r); }
      OppositeThenNothingAdded(db, t, j, r);
    }
  }

  // ----- Later ledgers -----

  /** The lines of a journal are the same in every later ledger. */
  lemma {:induction false} EntriesForever(guarded: bool, db: Db, cs: seq<Command>, t: Id, j: Id)
    requires Inv(db) && j in db.journals
    ensures EntriesOf(Run(guarded, db, cs).lines, t, j) == EntriesOf(db.lines, t, j)
  {
    hide Inv, Step, EntriesOf;
    if cs != [] {
      var n := |cs| - 1;
      EntriesForever(guarded, db, cs[..n], t, j);
      RunGrows(guarded, db, cs[..n]);
      EntriesStep(guarded, Run(guarded, db, cs[..n]), cs[n], t, j);
    }
  }

  lemma EntriesStep(guarded: bool, db: Db, c: Command, t: Id, j: Id)
    requires Inv(db) && j in db.journals
    ensures EntriesOf(Step(guarded, db, c).0.lines, t, j) == EntriesOf(db.lines, t, j)
  {
    hide Sound, Projects, Attempt, Step, Extends, EntriesOf;
    StepShape(guarded, db, c);
    if Attempt(guarded, db, c).Ok? {
      AttemptSound(guarded, db, c);
      EntriesStay(db, Attempt(guarded, db, c).value.0, NewJournal(c), t, j);
    }
  }

  /** Opposite journals stay opposite, and others never become so. */
  lemma OppositeForever(guarded: bool, db: Db, cs: seq<Command>, t: Id, j: Id, r: Id)
    requires Inv(db) && j in db.journals && r in db.journals
    ensures var later := Run(guarded, db, cs);
            j in later.journals && r in later.journals && (Opposite(later, t, j, r) <==> Opposite(db, t, j, r))
  {
    hide Inv, Run, Nil;
    RunGrows(guarded, db, cs);
    EntriesForever(guarded, db, cs, t, j);
    EntriesForever(guarded, db, cs, t, r);
  }

  // ----- Reversals -----

  lemma MirrorOpposite(db: Db, t: Id, j: Id, r: Id)
    requires Mirrors(db.journals, db.lines, j, r) && db.journals[j].tenant == t
    ensures Opposite(db, t, j, r)
  {
    hide Opposite, EntriesOf;
    forall a, dept ensures Net(db, t, j, a, dept) + Net(db, t, r, a, dept) == 0 {
      MirrorSum(EntriesOf(db.lines, t, j), j, a, dept);
    }
    OppositeIsOfNets(db, t, j, r);
  }

  /** The ledger right after a first reversal: the original and the answer are opposite exactly
      when the ledger before it said so. */
  lemma ReversalOppositeExactlyWhen(guarded: bool, db: Db, t: Id, j: Id, id: Id)
    requires Inv(db) && LinkKey(t, j) !in db.links && Step(guarded, db, ReverseJournal(t, j, id)).1.Ok?
    ensures var (after, r) := Step(guarded, db, ReverseJournal(t, j, id));
            && j in after.journals && after.journals[j].tenant == t
            && r.value in after.journals && after.journals[r.value].tenant == t
            && (Opposite(after, t, j, r.value) <==> WillCancel(db, t, j))
  {
    hide Inv, Step, Opposite;
    if DocKey(t, REVERSAL, j) in db.locks {
      TakenReversalOpposite(guarded, db, t, j, id);
    } else {
      FreeReversalOpposite(guarded, db, t, j, id);
    }
  }

  lemma TakenReversalOpposite(guarded: bool, db: Db, t: Id, j: Id, id: Id)
    requires Inv(db) && LinkKey(t, j) !in db.links && DocKey(t, REVERSAL, j) in db.locks
    requires Step(guarded, db, ReverseJournal(t, j, id)).1.Ok?
    ensures var (after, r) := Step(guarded, db, ReverseJournal(t, j, id));
            var taker := db.locks[DocKey(t, REVERSAL, j)];
            && r == Ok(taker) && after.journals == db.journals && after.lines == db.lines
            && j in db.journals && db.journals[j].tenant == t
            && taker in db.journals && db.journals[taker].tenant == t
            && (Opposite(after, t, j, taker) <==> Opposite(db, t, j, taker))
  {
    hide Sound, Projects, Step, Reverse, Opposite;
    StepShape(guarded, db, ReverseJournal(t, j, id));
    OwnReversed(db, t, j, id);
    LockedJournal(db, DocKey(t, REVERSAL, j));
    TakenReversalPostsNothing(guarded, db, t, j, id);
    SameOpposite(db, Step(guarded, db, ReverseJournal(t, j, id)).0, t, j, db.locks[DocKey(t, REVERSAL, j)]);
  }

  lemma OwnReversed(db: Db, t: Id, j: Id, id: Id)
    requires Reverse(db, t, j, id).Ok?
    ensures j in db.journals && db.journals[j].tenant == t
  {
    hide PostManual, PeriodFor;
  }

  lemma SameOpposite(db: Db, after: Db, t: Id, j: Id, r: Id)
    requires j in db.journals && r in db.journals
    requires after.journals == db.journals && after.lines == db.lines
    ensures Opposite(after, t, j, r) <==> Opposite(db, t, j, r)
  {
    hide Nil;
  }

  lemma FreeReversalOpposite(guarded: bool, db: Db, t: Id, j: Id, id: Id)
    requires Inv(db) && LinkKey(t, j) !in db.links && DocKey(t, REVERSAL, j) !in db.locks
    requires Step(guarded, db, ReverseJournal(t, j, id)).1.Ok?
    ensures var (after, r) := Step(guarded, db, ReverseJournal(t, j, id));
            && r == Ok(id) && j in db.journals && j in after.journals && after.journals[j].tenant == t
            && id in after.journals && after.journals[id].tenant == t && Opposite(after, t, j, id)
  {
    hide Sound, Projects, Step, Reverse, Opposite, EntriesOf;
    StepShape(guarded, db, ReverseJournal(t, j, id));
    FreshReversal(db, t, j, id);
    MirrorOpposite(Step(guarded, db, ReverseJournal(t, j, id)).0, t, j, id);
  }

  /** After a first reversal the original and its answer cancel in every report of every later
      ledger, whatever the requests in between, exactly when WillCancel held before it; in
      particular whenever nobody had taken the reversal's document. */
  lemma ReversalCancelsExactlyWhen(guarded: bool, db: Db, t: Id, j: Id, id: Id, cs: seq<Command>)
    requires Inv(db) && LinkKey(t, j) !in db.links && Step(guarded, db, ReverseJournal(t, j, id)).1.Ok?
    ensures var (after, r) := Step(guarded, db, ReverseJournal(t, j, id));
            Cancel(Run(guarded, after, cs), j, r.value) <==> WillCancel(db, t, j)
  {
    hide Sound, Projects, Step, Run, WillCancel, Opposite, Cancel, Grows;
    var (after, r) := Step(guarded, db, ReverseJournal(t, j, id));
    ReversalOppositeExactlyWhen(guarded, db, t, j, id);
    StepInv(guarded, db, ReverseJournal(t, j, id));
    OppositeForever(guarded, after, cs, t, j, r.value);
    RunGrows(guarded, after, cs);
    var later := Run(guarded, after, cs);
    assert later.journals[j] == after.journals[j] && later.journals[r.value] == after.journals[r.value] by {
      KeptJournals(after, later);
    }
    CancelExactlyWhen(later, t, j, r.value);
  }

  /** So a reversal whose document was free cancels for good, also if other callers post under
      the reserved document types before and after it. */
  lemma FreeReversalCancels(guarded: bool, db: Db, t: Id, j: Id, id: Id, cs: seq<Command>)
    requires Inv(db) && LinkKey(t, j) !in db.links && DocKey(t, REVERSAL, j) !in db.locks
    requires Step(guarded, db, ReverseJournal(t, j, id)).1.Ok?
    ensures Cancel(Run(guarded, Step(guarded, db, ReverseJournal(t, j, id)).0, cs), j, id)
  {
    hide Inv, Step, Cancel, Run, Opposite;
    FreeReversalOpposite(guarded, db, t, j, id);
    ReversalCancelsExactlyWhen(guarded, db, t, j, id, cs);
  }

  /** With an empty journal in its place the reversal answers that one, and the original then
      stays in the reports of every later ledger, unless it comes to nothing by itself. */
  lemma EmptyReversalCancelsExactlyWhen(guarded: bool, db: Db, t: Id, j: Id, id: Id, id': Id, cs: seq<Command>)
    requires Inv(db) && j in db.journals && db.journals[j].tenant == t && id !in db.journals
    requires DocKey(t, REVERSAL, j) !in db.locks && LinkKey(t, j) !in db.links
    requires db.periods[db.journals[j].period].status == Open
    ensures var taken := Step(guarded, db, CreateJournal(t, db.journals[j].date, "MANUAL", REVERSAL, j, [], id)).0;
            var (after, answer) := Step(guarded, taken, ReverseJournal(t, j, id'));
            answer == Ok(id) && (Cancel(Run(guarded, after, cs), j, id) <==> Nil(EntriesOf(db.lines, t, j)))
  {
    hide Inv, Step, Cancel, Run, Nil, EntriesOf;
    var post := CreateJournal(t, db.journals[j].date, "MANUAL", REVERSAL, j, [], id);
    var taken := Step(guarded, db, post).0;
    ReversalDocumentCanBeTaken(guarded, db, t, j, id, id');
    EntriesStep(guarded, db, post, t, j);
    ReversalCancelsExactlyWhen(guarded, taken, t, j, id', cs);
    TakenReversalOpposite(guarded, taken, t, j, id');
    assert EntriesOf(db.lines, t, j) + [] == EntriesOf(db.lines, t, j);
  }

  lemma KeptJournals(a: Db, b: Db)
    requires Grows(a, b)
    ensures Submap(a.journals, b.journals)
  {
  }
}
