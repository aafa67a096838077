// The financial reports, each computed from the raw lines by its own query, and
// the laws that make them agree with each other and with the balance projection.
module Reports {
  import opened Prelude
  import opened Sums
  import opened Ledger
  import opened LedgerInvariant

  // ----- Queries -----

  /** The optional period_id and as_of parameters of a report; an empty period_id is no filter. */
  datatype Filter = Filter(tenant: Id, period: Option<string>, asOf: Option<int>)

  predicate Matches(f: Filter, j: Journal) {
    && j.tenant == f.tenant
    && (Given(f.period) ==> j.period == f.period.value)
    && (f.asOf.Some? ==> j.date <= f.asOf.value)
  }

  /** The line joins a journal that passes the filter, and an account. */
  predicate IsSelected(db: Db, f: Filter, l: Line) {
    l.journal in db.journals && l.entry.account in db.accounts && Matches(f, db.journals[l.journal])
  }

  function Selected(db: Db, f: Filter): Line -> bool {
    (l: Line) => IsSelected(db, f, l)
  }

  function ForAccount(db: Db, f: Filter, a: Id): Line -> bool {
    (l: Line) => IsSelected(db, f, l) && l.entry.account == a
  }

  function ForKind(db: Db, f: Filter, kind: string): Line -> bool {
    (l: Line) => IsSelected(db, f, l) && db.accounts[l.entry.account].kind == kind
  }

  predicate HasLine(db: Db, f: Filter, a: Id) {
    exists l :: l in db.lines && ForAccount(db, f, a)(l)
  }

  /** trial_balance: one row per account with a selected line. */
  function TrialBalance(db: Db, f: Filter): map<Id, Totals> {
    map a | a in db.accounts && HasLine(db, f, a) ::
      Totals(Sum(db.lines, DebitIf(ForAccount(db, f, a))), Sum(db.lines, CreditIf(ForAccount(db, f, a))))
  }

  /** gl_detail: the selected lines of one account.  It filters on the line's own tenant. */
  function GlDetail(db: Db, lines: seq<Line>, t: Id, a: Id, period: Option<string>): seq<Line> {
    if lines == [] then []
    else
      var l := lines[|lines| - 1];
      GlDetail(db, lines[..|lines| - 1], t, a, period)
      + if InDetail(db, t, a, period, l) then [l] else []
  }

  predicate InDetail(db: Db, t: Id, a: Id, period: Option<string>, l: Line) {
    && l.tenant == t && l.entry.account == a && l.journal in db.journals
    && (Given(period) ==> db.journals[l.journal].period == period.value)
  }

  predicate IncomeKind(kind: string) {
    kind == "REVENUE" || kind == "EXPENSE"
  }

  datatype IncomeRow = IncomeRow(kind: string, amount: int)

  /** The rows of profit_loss: credit minus debit of each revenue and expense account. */
  function IncomeRows(db: Db, f: Filter): map<Id, IncomeRow> {
    map a | a in db.accounts && IncomeKind(db.accounts[a].kind) && HasLine(db, f, a) ::
      IncomeRow(db.accounts[a].kind,
                Sum(db.lines, CreditIf(ForAccount(db, f, a))) - Sum(db.lines, DebitIf(ForAccount(db, f, a))))
  }

  function IncomeColumn(rows: map<Id, IncomeRow>, kind: string): Id -> int {
    (a: Id) => if a in rows && rows[a].kind == kind then rows[a].amount else 0
  }

  datatype ProfitLoss = ProfitLoss(revenue: int, expense: int, netIncome: int)

  ghost function ProfitLossOf(db: Db, f: Filter): ProfitLoss {
    var rows := IncomeRows(db, f);
    var revenue := SetSum(rows.Keys, IncomeColumn(rows, "REVENUE"));
    var expense := -SetSum(rows.Keys, IncomeColumn(rows, "EXPENSE"));
    ProfitLoss(revenue, expense, revenue - expense)
  }

  datatype BalanceSheet = BalanceSheet(assets: int, liabilities: int, equity: int)

  /** Debit minus credit of all accounts of one type; 0 when the query has no such group. */
  function KindNet(db: Db, f: Filter, kind: string): int {
    Sum(db.lines, NetIf(ForKind(db, f, kind)))
  }

  function BalanceSheetOf(db: Db, f: Filter): BalanceSheet {
    BalanceSheet(KindNet(db, f, "ASSET"), -KindNet(db, f, "LIABILITY"), -KindNet(db, f, "EQUITY"))
  }

  // ----- Regrouping -----

  function AccountOf(): Line -> Id { (l: Line) => l.entry.account }

  function JournalIdOf(): Line -> Id { (l: Line) => l.journal }

  /** Every filter selects whole journals, so what it selects is balanced. */
  lemma SelectedBalanced(db: Db, f: Filter)
    requires LinesOk(db.lines, db.journals, db.accounts) && BalancedOk(db.lines)
    ensures Sum(db.lines, NetIf(Selected(db, f))) == 0
  {
    var w := NetIf(Selected(db, f));
    assert forall l :: l in db.lines ==> LineOk(db.journals, db.accounts, l);
    SumByGroups(db.lines, w, JournalIdOf(), db.journals.Keys);
    forall j | j in db.journals.Keys ensures GroupTotals(db.lines, w, JournalIdOf())(j) == 0 {
      if Matches(f, db.journals[j]) {
        SumCong(db.lines, InGroup(w, JournalIdOf(), j), NetIf(OfJournal(j)));
        assert JournalNet(db.lines, j) == 0;
      } else {
        SumZero(db.lines, InGroup(w, JournalIdOf(), j));
      }
    }
    SetSumZero(db.journals.Keys, GroupTotals(db.lines, w, JournalIdOf()));
  }

  lemma NetIsDebitLessCredit(lines: seq<Line>, p: Line -> bool)
    ensures Sum(lines, NetIf(p)) == Sum(lines, DebitIf(p)) - Sum(lines, CreditIf(p))
  {
    SumLinear(lines, NetIf(p), DebitIf(p), CreditIf(p), -1);
  }

  // ----- Trial balance -----

  function DebitColumn(tb: map<Id, Totals>): Id -> int {
    (a: Id) => if a in tb then tb[a].debit else 0
  }

  function CreditColumn(tb: map<Id, Totals>): Id -> int {
    (a: Id) => if a in tb then tb[a].credit else 0
  }

  /** A column with one entry per account adds up to the total over the lines. */
  lemma ColumnTotal(lines: seq<Line>, w: Line -> int, keys: set<Id>, column: Id -> int)
    requires forall l :: l in lines && w(l) != 0 ==> l.entry.account in keys
    requires forall a :: a in keys ==> column(a) == Sum(lines, InGroup(w, AccountOf(), a))
    ensures SetSum(keys, column) == Sum(lines, w)
  {
    SumByGroups(lines, w, AccountOf(), keys);
    SetSumCong(keys, column, GroupTotals(lines, w, AccountOf()));
  }

  lemma RowOfLine(db: Db, f: Filter, l: Line)
    requires l in db.lines && IsSelected(db, f, l)
    ensures l.entry.account in TrialBalance(db, f)
  {
    assert ForAccount(db, f, l.entry.account)(l);
  }

  lemma DebitColumnTotal(db: Db, f: Filter)
    ensures var tb := TrialBalance(db, f); SetSum(tb.Keys, DebitColumn(tb)) == Sum(db.lines, DebitIf(Selected(db, f)))
  {
    var tb, w := TrialBalance(db, f), DebitIf(Selected(db, f));
    forall l | l in db.lines && w(l) != 0 ensures l.entry.account in tb { RowOfLine(db, f, l); }
    forall a | a in tb.Keys ensures DebitColumn(tb)(a) == Sum(db.lines, InGroup(w, AccountOf(), a)) {
      SumCong(db.lines, InGroup(w, AccountOf(), a), DebitIf(ForAccount(db, f, a)));
    }
    ColumnTotal(db.lines, w, tb.Keys, DebitColumn(tb));
  }

  lemma CreditColumnTotal(db: Db, f: Filter)
    ensures var tb := TrialBalance(db, f); SetSum(tb.Keys, CreditColumn(tb)) == Sum(db.lines, CreditIf(Selected(db, f)))
  {
    var tb, w := TrialBalance(db, f), CreditIf(Selected(db, f));
    forall l | l in db.lines && w(l) != 0 ensures l.entry.account in tb { RowOfLine(db, f, l); }
    forall a | a in tb.Keys ensures CreditColumn(tb)(a) == Sum(db.lines, InGroup(w, AccountOf(), a)) {
      SumCong(db.lines, InGroup(w, AccountOf(), a), CreditIf(ForAccount(db, f, a)));
    }
    ColumnTotal(db.lines, w, tb.Keys, CreditColumn(tb));
  }

  /** The debit and credit columns of the trial balance have equal totals under every filter. */
  lemma TrialBalanceTotals(db: Db, f: Filter)
    requires Inv(db)
    ensures var tb := TrialBalance(db, f);
            SetSum(tb.Keys, DebitColumn(tb)) == SetSum(tb.Keys, CreditColumn(tb))
  {
    DebitColumnTotal(db, f);
    CreditColumnTotal(db, f);
    SelectedBalanced(db, f);
    NetIsDebitLessCredit(db.lines, Selected(db, f));
  }

  /** The trial balance of a period, recomputed from the lines, is the incrementally
      maintained account_balances table of that period: the same rows, the same totals. */
  lemma TrialBalanceIsProjection(db: Db, t: Id, p: Id)
    requires Inv(db) && p != ""
    ensures var tb := TrialBalance(db, Filter(t, Some(p), None));
            && (forall a :: a in tb <==> BalanceKey(t, p, a) in db.balances)
            && (forall a :: a in tb ==> tb[a] == db.balances[BalanceKey(t, p, a)])
  {
    hide PeriodsOk, AccountsOk, JournalsOk, BalancedOk, LocksOk, LinksOk, BatchColumnOk, BatchesOk;
    var f := Filter(t, Some(p), None);
    forall a
      ensures a in TrialBalance(db, f) <==> BalanceKey(t, p, a) in db.balances
      ensures a in TrialBalance(db, f) ==> TrialBalance(db, f)[a] == db.balances[BalanceKey(t, p, a)]
    {
      ProjectionRow(db, t, p, a);
    }
  }

  lemma SameSelection(db: Db, t: Id, p: Id, a: Id, l: Line)
    requires LineOk(db.journals, db.accounts, l) && p != ""
    ensures AtKey(db.journals, BalanceKey(t, p, a))(l) <==> ForAccount(db, Filter(t, Some(p), None), a)(l)
  {
  }

  lemma ProjectionRow(db: Db, t: Id, p: Id, a: Id)
    requires LinesOk(db.lines, db.journals, db.accounts) && Projects(db.balances, db.journals, db.lines) && p != ""
    ensures var tb, k := TrialBalance(db, Filter(t, Some(p), None)), BalanceKey(t, p, a);
            (a in tb <==> k in db.balances) && (a in tb ==> tb[a] == db.balances[k])
  {
    var f, k := Filter(t, Some(p), None), BalanceKey(t, p, a);
    forall l | l in db.lines ensures AtKey(db.journals, k)(l) <==> ForAccount(db, f, a)(l) {
      assert LineOk(db.journals, db.accounts, l);
      SameSelection(db, t, p, a, l);
    }
    SumCong(db.lines, DebitIf(AtKey(db.journals, k)), DebitIf(ForAccount(db, f, a)));
    SumCong(db.lines, CreditIf(AtKey(db.journals, k)), CreditIf(ForAccount(db, f, a)));
    if k in db.balances {
      var l :| l in db.lines && BalanceKeyOf(db.journals, l) == k;
      assert LineOk(db.journals, db.accounts, l) && ForAccount(db, f, a)(l);
    }
    if HasLine(db, f, a) {
      var l :| l in db.lines && ForAccount(db, f, a)(l);
      assert AtKey(db.journals, k)(l);
    }
  }

  // ----- Drill-down -----

  function DebitOfLine(): Line -> int { (l: Line) => l.entry.debit }

  function CreditOfLine(): Line -> int { (l: Line) => l.entry.credit }

  lemma SameDetail(db: Db, t: Id, a: Id, period: Option<string>, l: Line)
    requires LineOk(db.journals, db.accounts, l)
    ensures InDetail(db, t, a, period, l) <==> ForAccount(db, Filter(t, period, None), a)(l)
  {
  }

  lemma {:induction false} DetailSums(db: Db, lines: seq<Line>, t: Id, a: Id, period: Option<string>)
    requires LinesOk(lines, db.journals, db.accounts)
    ensures var rows, p := GlDetail(db, lines, t, a, period), ForAccount(db, Filter(t, period, None), a);
            && Sum(rows, DebitOfLine()) == Sum(lines, DebitIf(p))
            && Sum(rows, CreditOfLine()) == Sum(lines, CreditIf(p))
            && (rows != [] <==> exists l :: l in lines && p(l))
  {
    var p := ForAccount(db, Filter(t, period, None), a);
    if lines != [] {
      var n := |lines| - 1;
      var before := GlDetail(db, lines[..n], t, a, period);
      DetailSums(db, lines[..n], t, a, period);
      assert LineOk(db.journals, db.accounts, lines[n]);
      SameDetail(db, t, a, period, lines[n]);
      hide ForAccount, InDetail, LinesOk;
      if p(lines[n]) {
        SumSnoc(before, lines[n], DebitOfLine());
        SumSnoc(before, lines[n], CreditOfLine());
      } else {
        assert before + [] == before;
      }
      assert forall l :: l in lines <==> l in lines[..n] || l == lines[n];
    }
  }

  /** The GL drill-down of an account adds up to its trial-balance row, and is empty
      exactly when there is no such row, although it filters tenants on another table. */
  lemma DetailAgreesWithTrialBalance(db: Db, t: Id, a: Id, period: Option<string>)
    requires Inv(db)
    ensures var rows, tb := GlDetail(db, db.lines, t, a, period), TrialBalance(db, Filter(t, period, None));
            && (a in tb <==> rows != [])
            && (a in tb ==> tb[a] == Totals(Sum(rows, DebitOfLine()), Sum(rows, CreditOfLine())))
  {
    DetailSums(db, db.lines, t, a, period);
  }

  // ----- Income and balance sheet -----

  lemma IncomeRowOfLine(db: Db, f: Filter, kind: string, l: Line)
    requires l in db.lines && ForKind(db, f, kind)(l) && IncomeKind(kind)
    ensures l.entry.account in IncomeRows(db, f)
  {
    assert ForAccount(db, f, l.entry.account)(l);
    assert HasLine(db, f, l.entry.account);
  }

  lemma IncomeRowSum(db: Db, f: Filter, kind: string, a: Id)
    requires a in IncomeRows(db, f)
    ensures IncomeColumn(IncomeRows(db, f), kind)(a)
            == Sum(db.lines, InGroup(CreditLess(ForKind(db, f, kind)), AccountOf(), a))
  {
    var g, p := InGroup(CreditLess(ForKind(db, f, kind)), AccountOf(), a), ForAccount(db, f, a);
    if db.accounts[a].kind == kind {
      SumLinear(db.lines, g, CreditIf(p), DebitIf(p), -1);
    } else {
      SumZero(db.lines, g);
    }
  }

  /** A column of the income statement is the negated net of its account type. */
  lemma IncomeIsKindNet(db: Db, f: Filter, kind: string)
    requires IncomeKind(kind)
    ensures var rows := IncomeRows(db, f);
            SetSum(rows.Keys, IncomeColumn(rows, kind)) == -KindNet(db, f, kind)
  {
    hide HasLine, IncomeRows, IncomeColumn;
    var rows, w := IncomeRows(db, f), CreditLess(ForKind(db, f, kind));
    forall l | l in db.lines && w(l) != 0 ensures l.entry.account in rows { IncomeRowOfLine(db, f, kind, l); }
    forall a | a in rows.Keys ensures IncomeColumn(rows, kind)(a) == Sum(db.lines, InGroup(w, AccountOf(), a)) {
      IncomeRowSum(db, f, kind, a);
    }
    ColumnTotal(db.lines, w, rows.Keys, IncomeColumn(rows, kind));
    SumLinear(db.lines, w, Zero(), NetIf(ForKind(db, f, kind)), -1);
    SumZero(db.lines, Zero());
  }

  function CreditLess(p: Line -> bool): Line -> int {
    (l: Line) => if p(l) then l.entry.credit - l.entry.debit else 0
  }

  function Zero(): Line -> int { (l: Line) => 0 }

  /** Selected lines whose account has a type outside the five. */
  function ForNoKind(db: Db, f: Filter): Line -> bool {
    (l: Line) => IsSelected(db, f, l) && !KnownKind(db.accounts[l.entry.account].kind)
  }

  function ForKinds(db: Db, f: Filter, kinds: set<string>): Line -> bool {
    (l: Line) => IsSelected(db, f, l) && db.accounts[l.entry.account].kind in kinds
  }

  lemma AddKind(db: Db, f: Filter, kinds: set<string>, kind: string)
    requires kind !in kinds
    ensures Sum(db.lines, NetIf(ForKinds(db, f, kinds + {kind})))
              == Sum(db.lines, NetIf(ForKinds(db, f, kinds))) + KindNet(db, f, kind)
  {
    SumLinear(db.lines, NetIf(ForKinds(db, f, kinds + {kind})), NetIf(ForKinds(db, f, kinds)),
              NetIf(ForKind(db, f, kind)), 1);
  }

  /** The nets of the five types and of all other types make up the whole selection. */
  lemma KindsPartition(db: Db, f: Filter)
    ensures Sum(db.lines, NetIf(Selected(db, f)))
              == KindNet(db, f, "ASSET") + KindNet(db, f, "LIABILITY") + KindNet(db, f, "EQUITY")
               + KindNet(db, f, "REVENUE") + KindNet(db, f, "EXPENSE") + Sum(db.lines, NetIf(ForNoKind(db, f)))
  {
    hide IsSelected, Sum;
    SumZero(db.lines, NetIf(ForKinds(db, f, {})));
    AddKind(db, f, {}, "ASSET");
    AddKind(db, f, {} + {"ASSET"}, "LIABILITY");
    AddKind(db, f, {} + {"ASSET"} + {"LIABILITY"}, "EQUITY");
    AddKind(db, f, {} + {"ASSET"} + {"LIABILITY"} + {"EQUITY"}, "REVENUE");
    AddKind(db, f, {} + {"ASSET"} + {"LIABILITY"} + {"EQUITY"} + {"REVENUE"}, "EXPENSE");
    OtherKinds(db, f);
  }

  lemma OtherKinds(db: Db, f: Filter)
    ensures var five := {} + {"ASSET"} + {"LIABILITY"} + {"EQUITY"} + {"REVENUE"} + {"EXPENSE"};
            Sum(db.lines, NetIf(Selected(db, f)))
              == Sum(db.lines, NetIf(ForKinds(db, f, five))) + Sum(db.lines, NetIf(ForNoKind(db, f)))
  {
    hide IsSelected, Sum;
    var five := {} + {"ASSET"} + {"LIABILITY"} + {"EQUITY"} + {"REVENUE"} + {"EXPENSE"};
    SumLinear(db.lines, NetIf(Selected(db, f)), NetIf(ForKinds(db, f, five)), NetIf(ForNoKind(db, f)), 1);
  }

  function KindColumn(db: Db, tb: map<Id, Totals>, kind: string): Id -> int {
    (a: Id) => if a in tb && a in db.accounts && db.accounts[a].kind == kind then tb[a].debit - tb[a].credit else 0
  }

  lemma KindRowSum(db: Db, f: Filter, kind: string, a: Id)
    requires a in TrialBalance(db, f)
    ensures KindColumn(db, TrialBalance(db, f), kind)(a)
            == Sum(db.lines, InGroup(NetIf(ForKind(db, f, kind)), AccountOf(), a))
  {
    var g, p := InGroup(NetIf(ForKind(db, f, kind)), AccountOf(), a), ForAccount(db, f, a);
    if db.accounts[a].kind == kind {
      SumLinear(db.lines, g, DebitIf(p), CreditIf(p), -1);
    } else {
      SumZero(db.lines, g);
    }
  }

  lemma KindFromTrialBalance(db: Db, f: Filter, kind: string)
    ensures var tb := TrialBalance(db, f); KindNet(db, f, kind) == SetSum(tb.Keys, KindColumn(db, tb, kind))
  {
    hide TrialBalance, KindColumn;
    var tb, w := TrialBalance(db, f), NetIf(ForKind(db, f, kind));
    forall l | l in db.lines && w(l) != 0 ensures l.entry.account in tb { RowOfLine(db, f, l); }
    forall a | a in tb.Keys ensures KindColumn(db, tb, kind)(a) == Sum(db.lines, InGroup(w, AccountOf(), a)) {
      KindRowSum(db, f, kind, a);
    }
    ColumnTotal(db.lines, w, tb.Keys, KindColumn(db, tb, kind));
  }

  /** Every figure of the balance sheet and the income statement is the sum of the nets of
      the trial-balance rows of one account type, credit-positive except for assets and expenses. */
  lemma StatementsFromTrialBalance(db: Db, f: Filter)
    ensures var tb, bs, pl := TrialBalance(db, f), BalanceSheetOf(db, f), ProfitLossOf(db, f);
            && bs.assets == SetSum(tb.Keys, KindColumn(db, tb, "ASSET"))
            && bs.liabilities == -SetSum(tb.Keys, KindColumn(db, tb, "LIABILITY"))
            && bs.equity == -SetSum(tb.Keys, KindColumn(db, tb, "EQUITY"))
            && pl.revenue == -SetSum(tb.Keys, KindColumn(db, tb, "REVENUE"))
            && pl.expense == SetSum(tb.Keys, KindColumn(db, tb, "EXPENSE"))
  {
    hide TrialBalance, KindColumn, KindNet, IncomeRows, IncomeColumn;
    KindFromTrialBalance(db, f, "ASSET");
    KindFromTrialBalance(db, f, "LIABILITY");
    KindFromTrialBalance(db, f, "EQUITY");
    KindFromTrialBalance(db, f, "REVENUE");
    KindFromTrialBalance(db, f, "EXPENSE");
    IncomeIsKindNet(db, f, "REVENUE");
    IncomeIsKindNet(db, f, "EXPENSE");
  }

  /** Whatever types the accounts are given, the books close exactly when the lines on
      accounts of no known type net to zero. */
  lemma BooksCloseExactlyWhen(db: Db, f: Filter)
    requires LinesOk(db.lines, db.journals, db.accounts) && BalancedOk(db.lines)
    ensures var bs, pl := BalanceSheetOf(db, f), ProfitLossOf(db, f);
            (bs.assets == bs.liabilities + bs.equity + pl.netIncome) <==> (Sum(db.lines, NetIf(ForNoKind(db, f))) == 0)
  {
    SelectedBalanced(db, f);
    KindsPartition(db, f);
    IncomeIsKindNet(db, f, "REVENUE");
    IncomeIsKindNet(db, f, "EXPENSE");
  }

  /** In every reachable ledger and under every filter, assets are liabilities plus equity
      plus the net income of the income statement. */
  lemma BooksClose(db: Db, f: Filter)
    requires Inv(db)
    ensures var bs, pl := BalanceSheetOf(db, f), ProfitLossOf(db, f);
            bs.assets == bs.liabilities + bs.equity + pl.netIncome
  {
    assert forall l :: l in db.lines ==> LineOk(db.journals, db.accounts, l);
    SumZero(db.lines, NetIf(ForNoKind(db, f)));
    BooksCloseExactlyWhen(db, f);
  }
}
