// The figures of every report, summed line by line from the tables with the query written out.
module ReportFigures {
  import opened Prelude
  import opened Sums
  import opened Ledger
  import opened Reports

  /** The line's journal is the tenant's, in the period if one is given, and dated no later than
      the day if one is given. */
  predicate InReport(db: Db, t: Id, period: Option<string>, asOf: Option<int>, l: Line) {
    l.journal in db.journals && l.entry.account in db.accounts &&
    var j := db.journals[l.journal];
    && j.tenant == t
    && (period == None || period == Some("") || period == Some(j.period))
    && (asOf == None || j.date <= asOf.value)
  }

  function DebitOn(db: Db, lines: seq<Line>, t: Id, period: Option<string>, asOf: Option<int>, a: Id): int {
    if lines == [] then 0
    else
      var n := |lines| - 1;
      DebitOn(db, lines[..n], t, period, asOf, a)
      + if InReport(db, t, period, asOf, lines[n]) && lines[n].entry.account == a then lines[n].entry.debit else 0
  }

  function CreditOn(db: Db, lines: seq<Line>, t: Id, period: Option<string>, asOf: Option<int>, a: Id): int {
    if lines == [] then 0
    else
      var n := |lines| - 1;
      CreditOn(db, lines[..n], t, period, asOf, a)
      + if InReport(db, t, period, asOf, lines[n]) && lines[n].entry.account == a then lines[n].entry.credit else 0
  }

  /** Debits less credits of the selected lines on accounts of one type. */
  function TypeNet(db: Db, lines: seq<Line>, t: Id, period: Option<string>, asOf: Option<int>, kind: string): int {
    if lines == [] then 0
    else
      var n := |lines| - 1;
      TypeNet(db, lines[..n], t, period, asOf, kind)
      + if InReport(db, t, period, asOf, lines[n]) && db.accounts[lines[n].entry.account].kind == kind
        then lines[n].entry.debit - lines[n].entry.credit else 0
  }

  lemma SelectedIs(db: Db, t: Id, period: Option<string>, asOf: Option<int>, l: Line)
    ensures IsSelected(db, Filter(t, period, asOf), l) <==> InReport(db, t, period, asOf, l)
  {
  }

  lemma {:induction false} AccountSumsAre(db: Db, lines: seq<Line>, t: Id, period: Option<string>, asOf: Option<int>,
                                          a: Id)
    ensures var p := ForAccount(db, Filter(t, period, asOf), a);
            && Sum(lines, DebitIf(p)) == DebitOn(db, lines, t, period, asOf, a)
            && Sum(lines, CreditIf(p)) == CreditOn(db, lines, t, period, asOf, a)
  {
    hide InReport, IsSelected;
    if lines != [] {
      AccountSumsAre(db, lines[..|lines| - 1], t, period, asOf, a);
      SelectedIs(db, t, period, asOf, lines[|lines| - 1]);
    }
  }

  lemma {:induction false} TypeSumIs(db: Db, lines: seq<Line>, t: Id, period: Option<string>, asOf: Option<int>,
                                     kind: string)
    ensures Sum(lines, NetIf(ForKind(db, Filter(t, period, asOf), kind)))
            == TypeNet(db, lines, t, period, asOf, kind)
  {
    if lines != [] {
      TypeSumIs(db, lines[..|lines| - 1], t, period, asOf, kind);
      SelectedIs(db, t, period, asOf, lines[|lines| - 1]);
    }
  }

  predicate HasEntry(db: Db, t: Id, period: Option<string>, asOf: Option<int>, a: Id) {
    exists l :: l in db.lines && l.entry.account == a && InReport(db, t, period, asOf, l)
  }

  lemma HasLineIs(db: Db, t: Id, period: Option<string>, asOf: Option<int>, a: Id)
    ensures HasLine(db, Filter(t, period, asOf), a) <==> HasEntry(db, t, period, asOf, a)
  {
    var f := Filter(t, period, asOf);
    forall l ensures ForAccount(db, f, a)(l) <==> l.entry.account == a && InReport(db, t, period, asOf, l) {
      SelectedIs(db, t, period, asOf, l);
    }
  }

  /** trial_balance: a row for each account with a line in the report, with its debits and credits. */
  lemma TrialBalanceIs(db: Db, t: Id, period: Option<string>, asOf: Option<int>, a: Id)
    ensures var tb := TrialBalance(db, Filter(t, period, asOf));
            && (a in tb <==> HasEntry(db, t, period, asOf, a))
            && (a in tb ==> tb[a] == Totals(DebitOn(db, db.lines, t, period, asOf, a),
                                            CreditOn(db, db.lines, t, period, asOf, a)))
  {
    HasLineIs(db, t, period, asOf, a);
    AccountSumsAre(db, db.lines, t, period, asOf, a);
  }

  /** profit_loss: a row for each revenue and expense account with a line, its credits less its debits. */
  lemma IncomeRowsAre(db: Db, t: Id, period: Option<string>, asOf: Option<int>, a: Id)
    ensures var rows := IncomeRows(db, Filter(t, period, asOf));
            && (a in rows <==> HasEntry(db, t, period, asOf, a) && db.accounts[a].kind in {"REVENUE", "EXPENSE"})
            && (a in rows ==> rows[a] == IncomeRow(db.accounts[a].kind,
                                                   CreditOn(db, db.lines, t, period, asOf, a)
                                                   - DebitOn(db, db.lines, t, period, asOf, a)))
  {
    HasLineIs(db, t, period, asOf, a);
    AccountSumsAre(db, db.lines, t, period, asOf, a);
  }

  /** Both statements, figure by figure: assets and expenses debit-positive, the rest credit-positive. */
  lemma StatementsAre(db: Db, t: Id, period: Option<string>, asOf: Option<int>)
    ensures var bs, pl := BalanceSheetOf(db, Filter(t, period, asOf)), ProfitLossOf(db, Filter(t, period, asOf));
            && bs.assets == TypeNet(db, db.lines, t, period, asOf, "ASSET")
            && bs.liabilities == -TypeNet(db, db.lines, t, period, asOf, "LIABILITY")
            && bs.equity == -TypeNet(db, db.lines, t, period, asOf, "EQUITY")
            && pl.revenue == -TypeNet(db, db.lines, t, period, asOf, "REVENUE")
            && pl.expense == TypeNet(db, db.lines, t, period, asOf, "EXPENSE")
            && pl.netIncome == pl.revenue - pl.expense
  {
    hide IncomeRows, IncomeColumn;
    var f := Filter(t, period, asOf);
    TypeSumIs(db, db.lines, t, period, asOf, "ASSET");
    TypeSumIs(db, db.lines, t, period, asOf, "LIABILITY");
    TypeSumIs(db, db.lines, t, period, asOf, "EQUITY");
    TypeSumIs(db, db.lines, t, period, asOf, "REVENUE");
    TypeSumIs(db, db.lines, t, period, asOf, "EXPENSE");
    IncomeIsKindNet(db, f, "REVENUE");
    IncomeIsKindNet(db, f, "EXPENSE");
  }

  predicate OnDetail(db: Db, t: Id, a: Id, period: Option<string>, l: Line) {
    && l.tenant == t && l.entry.account == a && l.journal in db.journals
    && (period == None || period == Some("") || period == Some(db.journals[l.journal].period))
  }

  lemma DetailIs(db: Db, t: Id, a: Id, period: Option<string>, l: Line)
    ensures InDetail(db, t, a, period, l) <==> OnDetail(db, t, a, period, l)
  {
  }

  /** gl_detail: each line of the tenant on the account, in the period if one is given, as often
      as it was booked, and no other. */
  lemma {:induction false} GlDetailIs(db: Db, lines: seq<Line>, t: Id, a: Id, period: Option<string>, l: Line)
    ensures multiset(GlDetail(db, lines, t, a, period))[l]
            == if OnDetail(db, t, a, period, l) then multiset(lines)[l] else 0
  {
    hide InDetail, OnDetail;
    if lines != [] {
      var n := |lines| - 1;
      var before, last := GlDetail(db, lines[..n], t, a, period), lines[n];
      GlDetailIs(db, lines[..n], t, a, period, l);
      DetailIs(db, t, a, period, last);
      assert lines == lines[..n] + [last];
      assert multiset(before + [last]) == multiset(before) + multiset{last};
      assert before + [] == before;
    }
  }
}
