/**
 * The four financial reports and the report dispatcher. Every report takes the
 * transactions already restricted to the chosen date range.
 */
module Reports {
  import opened Wrappers
  import opened Ledger

  // ---------------------------------------------------------------------------
  // Profit & loss, cash flow, balance sheet

  /** `generateProfitLossReport`; `profitShownPositive` is the colour test `profit >= 0`. */
  datatype ProfitLoss = ProfitLoss(income: real, expenses: real, profit: real, profitShownPositive: bool)

  function ProfitLossReport(txs: seq<Transaction>): (r: ProfitLoss)
    ensures r.income == SumWhere(txs, OfType(Income))
    ensures r.expenses == SumWhere(txs, OfType(Expense))
    ensures r.profit == r.income - r.expenses
    ensures r.profitShownPositive <==> r.income >= r.expenses
  {
    var income := SumWhere(txs, OfType(Income));
    var expenses := SumWhere(txs, OfType(Expense));
    ProfitLoss(income, expenses, income - expenses, income - expenses >= 0.0)
  }

  /** `generateCashFlowReport`: inflows are incomes, outflows are expenses. */
  datatype CashFlow = CashFlow(inflows: real, outflows: real, net: real, netShownPositive: bool)

  function CashFlowReport(txs: seq<Transaction>): (r: CashFlow)
    ensures r.inflows == SumWhere(txs, OfType(Income))
    ensures r.outflows == SumWhere(txs, OfType(Expense))
    ensures r.net == r.inflows - r.outflows
    ensures r.netShownPositive <==> r.inflows >= r.outflows
  {
    var inflows := SumWhere(txs, OfType(Income));
    var outflows := SumWhere(txs, OfType(Expense));
    CashFlow(inflows, outflows, inflows - outflows, inflows - outflows >= 0.0)
  }

  /** The profit & loss statement and the cash-flow statement always agree:
      same net figure, same sign colour, same two totals. */
  lemma ProfitLossAgreesWithCashFlow(txs: seq<Transaction>)
    ensures ProfitLossReport(txs).profit == CashFlowReport(txs).net
    ensures ProfitLossReport(txs).profitShownPositive == CashFlowReport(txs).netShownPositive
    ensures ProfitLossReport(txs).income == CashFlowReport(txs).inflows
    ensures ProfitLossReport(txs).expenses == CashFlowReport(txs).outflows
  {
  }

  /** Asset, liability and unrecognised transactions affect neither statement;
      an income or expense moves the net by exactly its signed amount. */
  lemma OnlyIncomeAndExpenseMoveProfit(txs: seq<Transaction>, t: Transaction)
    ensures t.txType != Income && t.txType != Expense ==>
      ProfitLossReport(txs + [t]) == ProfitLossReport(txs) && CashFlowReport(txs + [t]) == CashFlowReport(txs)
    ensures t.txType == Income ==> ProfitLossReport(txs + [t]).profit == ProfitLossReport(txs).profit + t.amount
    ensures t.txType == Expense ==> ProfitLossReport(txs + [t]).profit == ProfitLossReport(txs).profit - t.amount
  {
    SumWhereExtend(txs, t, OfType(Income));
    SumWhereExtend(txs, t, OfType(Expense));
  }

  /** `generateBalanceSheet`; `total` is the figure printed under liabilities and equity. */
  datatype BalanceSheet = BalanceSheet(assets: real, liabilities: real, equity: real, total: real)

  function BalanceSheetReport(txs: seq<Transaction>): (r: BalanceSheet)
    ensures r.assets == SumWhere(txs, OfType(Asset))
    ensures r.liabilities == SumWhere(txs, OfType(Liability))
    ensures r.equity == r.assets - r.liabilities
                      + (ProfitLossReport(txs).income - ProfitLossReport(txs).expenses)
    ensures r.total == r.liabilities + r.equity
  {
    var assets := SumWhere(txs, OfType(Asset));
    var liabilities := SumWhere(txs, OfType(Liability));
    var income := SumWhere(txs, OfType(Income));
    var expenses := SumWhere(txs, OfType(Expense));
    var equity := assets - liabilities + (income - expenses);
    BalanceSheet(assets, liabilities, equity, liabilities + equity)
  }

  /** The printed total is assets plus the period's profit, so it equals total
      assets exactly when income equals expenses. The sheet does not balance in general. */
  lemma BalanceSheetTotalIsAssetsPlusProfit(txs: seq<Transaction>)
    ensures BalanceSheetReport(txs).total == BalanceSheetReport(txs).assets + ProfitLossReport(txs).profit
    ensures BalanceSheetReport(txs).total == BalanceSheetReport(txs).assets
        <==> ProfitLossReport(txs).income == ProfitLossReport(txs).expenses
  {
  }

  /** A single income of 100 gives a sheet whose total (100) differs from its assets (0). */
  lemma BalanceSheetNeedNotBalance()
    ensures var bs := BalanceSheetReport([Transaction("t1", 0, "c1", Income, "Service Revenue", 100.0)]);
            bs.assets == 0.0 && bs.total == 100.0
  {
    var txs := [Transaction("t1", 0, "c1", Income, "Service Revenue", 100.0)];
    assert txs[..0] == [];
  }

  // ---------------------------------------------------------------------------
  // Trial balance

  /** One account row of the trial balance. */
  datatype Row = Row(account: string, debit: real, credit: real)

  function Accounts(rows: seq<Row>): (accounts: seq<string>)
    ensures |accounts| == |rows|
    ensures forall i :: 0 <= i < |rows| ==> accounts[i] == rows[i].account
  {
    if |rows| == 0 then [] else Accounts(rows[..|rows| - 1]) + [rows[|rows| - 1].account]
  }

  /** The categories of `txs`, each once, in the order they first appear. */
  function FirstSeen(txs: seq<Transaction>): (cats: seq<string>)
    ensures forall i, j :: 0 <= i < j < |cats| ==> cats[i] != cats[j]
    ensures forall c :: c in cats <==> exists i :: 0 <= i < |txs| && txs[i].category == c
  {
    if |txs| == 0 then []
    else
      var earlier := FirstSeen(txs[..|txs| - 1]);
      var c := txs[|txs| - 1].category;
      assert forall k :: 0 <= k < |txs| - 1 ==> txs[..|txs| - 1][k] == txs[k];
      if c in earlier then earlier else earlier + [c]
  }

  /** Position of the row for `account`, if there is one. */
  function RowIndex(rows: seq<Row>, account: string): (k: Option<nat>)
    ensures k.Some? ==> k.value < |rows| && rows[k.value].account == account
    ensures k.None? ==> forall i :: 0 <= i < |rows| ==> rows[i].account != account
  {
    if |rows| == 0 then None
    else if rows[|rows| - 1].account == account then Some(|rows| - 1)
    else RowIndex(rows[..|rows| - 1], account)
  }

  /** One step of the `forEach`: create the category's row on first sight, then
      add the amount to its debit column for expenses and assets, else to its credit column. */
  function Post(rows: seq<Row>, t: Transaction): seq<Row>
  {
    var k := RowIndex(rows, t.category);
    var row := if k.Some? then rows[k.value] else Row(t.category, 0.0, 0.0);
    var posted :=
      if IsDebit(t.txType) then row.(debit := row.debit + t.amount)
      else row.(credit := row.credit + t.amount);
    if k.Some? then rows[k.value := posted] else rows + [posted]
  }

  /** Correct rows for `txs`: one per category in first-seen order, each column
      holding exactly the amounts of that category on that side. */
  ghost predicate RowsDescribe(rows: seq<Row>, txs: seq<Transaction>)
  {
    && Accounts(rows) == FirstSeen(txs)
    && forall i :: 0 <= i < |rows| ==>
         && rows[i].debit == SumWhere(txs, Column(rows[i].account, true))
         && rows[i].credit == SumWhere(txs, Column(rows[i].account, false))
  }

  /** The accumulated `accounts` object after all of `txs`, in entry order. */
  function TrialBalanceRows(txs: seq<Transaction>): (rows: seq<Row>)
    ensures RowsDescribe(rows, txs)
  {
    if |txs| == 0 then []
    else
      var prefix := txs[..|txs| - 1];
      var t := txs[|txs| - 1];
      var rows := TrialBalanceRows(prefix);
      PostKeepsDescription(rows, prefix, t);
      assert prefix + [t] == txs;
      Post(rows, t)
  }

  lemma PostKeepsDescription(rows: seq<Row>, txs: seq<Transaction>, t: Transaction)
    requires RowsDescribe(rows, txs)
    ensures RowsDescribe(Post(rows, t), txs + [t])
  {
    var post := Post(rows, t);
    var k := RowIndex(rows, t.category);
    assert (txs + [t])[..|txs|] == txs;
    forall i | 0 <= i < |post|
      ensures post[i].debit == SumWhere(txs + [t], Column(post[i].account, true))
      ensures post[i].credit == SumWhere(txs + [t], Column(post[i].account, false))
    {
      SumWhereExtend(txs, t, Column(post[i].account, true));
      SumWhereExtend(txs, t, Column(post[i].account, false));
      if i < |rows| {
        assert post[i].account == rows[i].account;
      } else {
        assert k.None? && post[i].account == t.category;
        assert SumWhere(txs, Column(t.category, true)) == 0.0 by {
          AbsentAccountSumsToZero(txs, t.category, true);
        }
        assert SumWhere(txs, Column(t.category, false)) == 0.0 by {
          AbsentAccountSumsToZero(txs, t.category, false);
        }
      }
    }
    assert Accounts(post) == FirstSeen(txs + [t]) by {
      var earlier := FirstSeen(txs);
      assert Accounts(rows) == earlier;
      if k.Some? {
        assert t.category in earlier;
        assert Accounts(post) == Accounts(rows);
      } else {
        assert t.category !in earlier;
        assert Accounts(post) == Accounts(rows) + [t.category];
      }
    }
  }

  /** A category no transaction carries has empty columns. */
  lemma {:induction false} AbsentAccountSumsToZero(txs: seq<Transaction>, account: string, debit: bool)
    requires account !in FirstSeen(txs)
    ensures SumWhere(txs, Column(account, debit)) == 0.0
  {
    if |txs| > 0 {
      var prefix := txs[..|txs| - 1];
      assert forall i | 0 <= i < |prefix| :: prefix[i] == txs[i];
      AbsentAccountSumsToZero(prefix, account, debit);
    }
  }

  /** Column total over the rows, in row order. */
  function ColumnTotal(rows: seq<Row>, debit: bool): real
  {
    if |rows| == 0 then 0.0
    else ColumnTotal(rows[..|rows| - 1], debit) + (if debit then rows[|rows| - 1].debit else rows[|rows| - 1].credit)
  }

  /** `generateTrialBalance`. */
  datatype TrialBalance = TrialBalance(rows: seq<Row>, totalDebit: real, totalCredit: real)

  function TrialBalanceReport(txs: seq<Transaction>): (r: TrialBalance)
    ensures Accounts(r.rows) == FirstSeen(txs)
    ensures forall i :: 0 <= i < |r.rows| ==>
      r.rows[i].debit == SumWhere(txs, Column(r.rows[i].account, true))
      && r.rows[i].credit == SumWhere(txs, Column(r.rows[i].account, false))
    ensures r.totalDebit == SumWhere(txs, Side(true))
    ensures r.totalCredit == SumWhere(txs, Side(false))
    ensures r.totalDebit + r.totalCredit == SumWhere(txs, Everything)
  {
    var rows := TrialBalanceRows(txs);
    ColumnTotalIsSide(txs, true);
    ColumnTotalIsSide(txs, false);
    SidesPartitionEverything(txs);
    TrialBalance(rows, ColumnTotal(rows, true), ColumnTotal(rows, false))
  }

  /** Summing a column row by row gives the same as summing that side of the
      ledger transaction by transaction. */
  lemma {:induction false} ColumnTotalIsSide(txs: seq<Transaction>, debit: bool)
    ensures ColumnTotal(TrialBalanceRows(txs), debit) == SumWhere(txs, Side(debit))
  {
    if |txs| > 0 {
      var prefix := txs[..|txs| - 1];
      var t := txs[|txs| - 1];
      assert prefix + [t] == txs;
      ColumnTotalIsSide(prefix, debit);
      ColumnTotalStep(prefix, t, debit);
      SumWhereExtend(prefix, t, Side(debit));
    }
  }

  /** One more transaction adds its amount to exactly one column total of the trial balance. */
  lemma ColumnTotalStep(txs: seq<Transaction>, t: Transaction, debit: bool)
    ensures ColumnTotal(TrialBalanceRows(txs + [t]), debit)
         == ColumnTotal(TrialBalanceRows(txs), debit) + (if IsDebit(t.txType) == debit then t.amount else 0.0)
  {
    assert (txs + [t])[..|txs|] == txs;
    assert TrialBalanceRows(txs + [t]) == Post(TrialBalanceRows(txs), t);
    PostColumnTotal(TrialBalanceRows(txs), t, debit);
  }

  /** Posting a transaction adds its amount to exactly one column total. */
  lemma PostColumnTotal(rows: seq<Row>, t: Transaction, debit: bool)
    ensures ColumnTotal(Post(rows, t), debit)
         == ColumnTotal(rows, debit) + (if IsDebit(t.txType) == debit then t.amount else 0.0)
  {
    var k := RowIndex(rows, t.category);
    if k.Some? {
      var row := rows[k.value];
      var posted :=
        if IsDebit(t.txType) then row.(debit := row.debit + t.amount)
        else row.(credit := row.credit + t.amount);
      UpdateColumnTotal(rows, k.value, posted, debit);
    } else {
      var posted := if IsDebit(t.txType) then Row(t.category, t.amount, 0.0) else Row(t.category, 0.0, t.amount);
      assert (rows + [posted])[..|rows|] == rows;
    }
  }

  /** Replacing one row changes a column total by the difference in that row. */
  lemma {:induction false} UpdateColumnTotal(rows: seq<Row>, k: nat, row: Row, debit: bool)
    requires k < |rows|
    ensures ColumnTotal(rows[k := row], debit)
         == ColumnTotal(rows, debit)
            - (if debit then rows[k].debit else rows[k].credit)
            + (if debit then row.debit else row.credit)
  {
    var n := |rows|;
    if k == n - 1 {
      assert rows[k := row][..n - 1] == rows[..n - 1];
    } else {
      assert rows[k := row][..n - 1] == rows[..n - 1][k := row];
      UpdateColumnTotal(rows[..n - 1], k, row, debit);
    }
  }

  /** Worked example: two rows in first-seen order, one with a debit and a credit. */
  lemma TrialBalanceExample()
    ensures var r := TrialBalanceReport([
              Transaction("a", 0, "c", Expense, "Rent", 10.0),
              Transaction("b", 0, "c", Income, "Fees", 50.0),
              Transaction("d", 0, "c", Asset, "Fees", 5.0)]);
            Accounts(r.rows) == ["Rent", "Fees"] && r.totalDebit == 15.0 && r.totalCredit == 50.0
  {
    var txs := [
      Transaction("a", 0, "c", Expense, "Rent", 10.0),
      Transaction("b", 0, "c", Income, "Fees", 50.0),
      Transaction("d", 0, "c", Asset, "Fees", 5.0)];
    assert txs[..2][..1] == txs[..1];
    assert txs[..1][..0] == [];
    assert FirstSeen(txs[..1]) == ["Rent"];
    assert FirstSeen(txs[..2]) == ["Rent", "Fees"];
    assert SumWhere(txs[..1], Side(true)) == 10.0;
    assert SumWhere(txs[..2], Side(true)) == 10.0;
    assert SumWhere(txs[..1], Side(false)) == 0.0;
    assert SumWhere(txs[..2], Side(false)) == 50.0;
  }

  // ---------------------------------------------------------------------------
  // Dispatcher

  datatype Report =
    | PL(pl: ProfitLoss)
    | BS(bs: BalanceSheet)
    | CF(cf: CashFlow)
    | TB(tb: TrialBalance)
    | NotImplemented

  datatype ReportError = DateRangeMissing

  /** `generateFinancialReport`: both dates are required; the transactions are
      restricted to the inclusive range and the report type picks the generator;
      an unknown type yields the "not implemented" placeholder. */
  function GenerateFinancialReport(
    reportType: string, dateFrom: Option<int>, dateTo: Option<int>, txs: seq<Transaction>)
    : (r: Result<Report, ReportError>)
    ensures r.Failure? <==> dateFrom.None? || dateTo.None?
    ensures r.Success? && reportType == "pl" ==>
      r.value == PL(ProfitLossReport(InRange(txs, dateFrom.value, dateTo.value)))
    ensures r.Success? && reportType == "balance-sheet" ==>
      r.value == BS(BalanceSheetReport(InRange(txs, dateFrom.value, dateTo.value)))
    ensures r.Success? && reportType == "cash-flow" ==>
      r.value == CF(CashFlowReport(InRange(txs, dateFrom.value, dateTo.value)))
    ensures r.Success? && reportType == "trial-balance" ==>
      r.value == TB(TrialBalanceReport(InRange(txs, dateFrom.value, dateTo.value)))
    ensures r.Success? ==>
      (r.value == NotImplemented <==> reportType !in {"pl", "balance-sheet", "cash-flow", "trial-balance"})
  {
    if dateFrom.None? || dateTo.None? then Failure(DateRangeMissing)
    else
      var inRange := InRange(txs, dateFrom.value, dateTo.value);
      if reportType == "pl" then Success(PL(ProfitLossReport(inRange)))
      else if reportType == "balance-sheet" then Success(BS(BalanceSheetReport(inRange)))
      else if reportType == "cash-flow" then Success(CF(CashFlowReport(inRange)))
      else if reportType == "trial-balance" then Success(TB(TrialBalanceReport(inRange)))
      else Success(NotImplemented)
  }

  /** A transaction dated outside the chosen range cannot change any report. */
  lemma ReportIgnoresOutOfRange(
    reportType: string, dateFrom: int, dateTo: int, txs: seq<Transaction>, t: Transaction)
    requires !(dateFrom <= t.date <= dateTo)
    ensures GenerateFinancialReport(reportType, Some(dateFrom), Some(dateTo), txs + [t])
         == GenerateFinancialReport(reportType, Some(dateFrom), Some(dateTo), txs)
  {
    InRangeIgnoresOutside(txs, t, dateFrom, dateTo);
  }
}
