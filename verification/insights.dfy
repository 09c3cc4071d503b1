/**
 * The insight engine: aggregates over all transactions and invoices, five
 * groups of guarded rules gated by the active category text, a fallback when
 * no rule fires, and the dispatch of an insight's action label to a section.
 * Only title, action, priority and impact figure are modelled; descriptions are text.
 */
module Insights {
  import opened Wrappers
  import opened Text
  import opened Ledger
  import Reports
  import Invoicing

  datatype Priority = High | Medium | Low

  /** The impact line: either a money figure or fixed text. */
  datatype Impact = Amount(value: real) | Note(text: string)

  /** Which rule produced an insight; `Title` gives the heading the page shows. */
  datatype Rule =
    | LowProfitMargin | HighExpenseRatio | ExcellentProfitability
    | MajorExpenseCategory | AutomatedCostTracking
    | ClientBaseExpansion | ClientValueOptimization | InvestmentOpportunity
    | OverdueInvoicesRisk | HighPendingVolume | ClientConcentrationRisk
    | CashFlowConstraint | TightCashFlowMargin | SlowPaymentCollection
    | GettingStartedHint

  function Title(rule: Rule): string
  {
    match rule
    case LowProfitMargin => "Low Profit Margin Detected"
    case HighExpenseRatio => "High Expense Ratio"
    case ExcellentProfitability => "Excellent Profitability"
    case MajorExpenseCategory => "Major Expense Category Identified"
    case AutomatedCostTracking => "Automated Cost Tracking"
    case ClientBaseExpansion => "Client Base Expansion Opportunity"
    case ClientValueOptimization => "Client Value Optimization"
    case InvestmentOpportunity => "Investment Opportunity"
    case OverdueInvoicesRisk => "Overdue Invoices Risk"
    case HighPendingVolume => "High Pending Invoice Volume"
    case ClientConcentrationRisk => "Client Concentration Risk"
    case CashFlowConstraint => "Cash Flow Constraint"
    case TightCashFlowMargin => "Tight Cash Flow Margin"
    case SlowPaymentCollection => "Slow Payment Collection"
    case GettingStartedHint => "Getting Started"
  }

  datatype Insight = Insight(rule: Rule, action: string, priority: Priority, impact: Impact)

  // ---------------------------------------------------------------------------
  // Aggregates

  /** Everything the rules look at. */
  datatype Facts = Facts(
    income: real,
    expenses: real,
    clientCount: nat,
    invoiceCount: nat,
    pendingCount: nat,       // stored status pending or overdue
    overdueCount: nat,       // due before now and not paid
    overdueAmount: real,
    unpaidAmount: real,      // stored status other than paid
    paidCount: nat,
    topExpense: Option<Reports.Row>)

  /** Invoices stored as pending or overdue, that is, not yet paid (the status
      filter of `pendingInvoices`); none exactly when every invoice is paid. */
  function PendingCount(invs: seq<Invoicing.Invoice>): (n: nat)
    ensures n <= |invs|
    ensures n == 0 <==> AllPaid(invs)
  {
    if |invs| == 0 then 0
    else
      var prefix := invs[..|invs| - 1];
      var last := invs[|invs| - 1];
      assert AllPaid(invs) <==> AllPaid(prefix) && last.status == Invoicing.Paid by {
        assert forall i :: 0 <= i < |prefix| ==> prefix[i] == invs[i];
      }
      PendingCount(prefix) + (if last.status in {Invoicing.Pending, Invoicing.Overdue} then 1 else 0)
  }

  /** Every invoice is stored as paid. */
  predicate AllPaid(invs: seq<Invoicing.Invoice>)
  {
    forall i :: 0 <= i < |invs| ==> invs[i].status == Invoicing.Paid
  }

  /** Invoices stored as paid; together with the pending ones they are all invoices. */
  function PaidCount(invs: seq<Invoicing.Invoice>): (n: nat)
    ensures n + PendingCount(invs) == |invs|
  {
    if |invs| == 0 then 0
    else PaidCount(invs[..|invs| - 1]) + (if invs[|invs| - 1].status == Invoicing.Paid then 1 else 0)
  }

  /** Invoices due before now and not paid (`overdueInvoices`); each of them is also pending. */
  function OverdueCount(invs: seq<Invoicing.Invoice>, now: int): (n: nat)
    ensures n <= PendingCount(invs)
  {
    if |invs| == 0 then 0
    else OverdueCount(invs[..|invs| - 1], now) + (if Invoicing.IsOverdue(invs[|invs| - 1], now) then 1 else 0)
  }

  /** Every invoice total is non-negative. */
  predicate NonNegativeTotals(invs: seq<Invoicing.Invoice>)
  {
    forall i :: 0 <= i < |invs| ==> invs[i].total >= 0.0
  }

  /** `overdueAmount`: the totals of the overdue invoices. It is 0 without an
      overdue invoice, and with non-negative totals it is part of the unpaid amount. */
  function OverdueAmount(invs: seq<Invoicing.Invoice>, now: int): (a: real)
    ensures OverdueCount(invs, now) == 0 ==> a == 0.0
    ensures NonNegativeTotals(invs) ==> 0.0 <= a <= UnpaidAmount(invs)
  {
    if |invs| == 0 then 0.0
    else
      var prefix := invs[..|invs| - 1];
      assert NonNegativeTotals(invs) ==> NonNegativeTotals(prefix) by {
        assert forall i :: 0 <= i < |prefix| ==> prefix[i] == invs[i];
      }
      OverdueAmount(prefix, now)
      + (if Invoicing.IsOverdue(invs[|invs| - 1], now) then invs[|invs| - 1].total else 0.0)
  }

  /** The totals of the invoices not stored as paid; 0 when every invoice is paid. */
  function UnpaidAmount(invs: seq<Invoicing.Invoice>): (a: real)
    ensures PendingCount(invs) == 0 ==> a == 0.0
  {
    if |invs| == 0 then 0.0
    else UnpaidAmount(invs[..|invs| - 1])
         + (if invs[|invs| - 1].status != Invoicing.Paid then invs[|invs| - 1].total else 0.0)
  }

  /** Every invoice figure is additive over concatenation; with `InvoiceFiguresOfOne`
      this fixes each figure for every list of invoices. */
  lemma {:induction false} InvoiceFiguresAppend(a: seq<Invoicing.Invoice>, b: seq<Invoicing.Invoice>, now: int)
    ensures PendingCount(a + b) == PendingCount(a) + PendingCount(b)
    ensures PaidCount(a + b) == PaidCount(a) + PaidCount(b)
    ensures OverdueCount(a + b, now) == OverdueCount(a, now) + OverdueCount(b, now)
    ensures OverdueAmount(a + b, now) == OverdueAmount(a, now) + OverdueAmount(b, now)
    ensures UnpaidAmount(a + b) == UnpaidAmount(a) + UnpaidAmount(b)
  {
    if |b| == 0 {
      assert a + b == a;
    } else {
      assert (a + b)[..|a + b| - 1] == a + b[..|b| - 1];
      InvoiceFiguresAppend(a, b[..|b| - 1], now);
    }
  }

  /** The figures of a single invoice. */
  lemma InvoiceFiguresOfOne(inv: Invoicing.Invoice, now: int)
    ensures PendingCount([inv]) == if inv.status != Invoicing.Paid then 1 else 0
    ensures PaidCount([inv]) == if inv.status == Invoicing.Paid then 1 else 0
    ensures OverdueCount([inv], now) == if Invoicing.IsOverdue(inv, now) then 1 else 0
    ensures OverdueAmount([inv], now) == if Invoicing.IsOverdue(inv, now) then inv.total else 0.0
    ensures UnpaidAmount([inv]) == if inv.status != Invoicing.Paid then inv.total else 0.0
  {
    assert [inv][..0] == [];
  }

  /** The expense transactions, in order. */
  function ExpensesOnly(txs: seq<Transaction>): (r: seq<Transaction>)
    ensures forall i :: 0 <= i < |r| ==> r[i].txType == Expense
    ensures SumWhere(r, Everything) == SumWhere(txs, OfType(Expense))
  {
    if |txs| == 0 then []
    else
      var prefix := txs[..|txs| - 1];
      var t := txs[|txs| - 1];
      var earlier := ExpensesOnly(prefix);
      SumWhereExtend(earlier, t, Everything);
      if t.txType == Expense then earlier + [t] else earlier
  }

  /** Index of the category with the largest total; on ties the earliest one,
      as a stable descending sort followed by taking the first entry. */
  function TopIndex(rows: seq<Reports.Row>): (k: Option<nat>)
    ensures k.Some? <==> |rows| > 0
    ensures k.Some? ==> k.value < |rows|
    ensures k.Some? ==> forall i :: 0 <= i < |rows| ==> rows[i].debit <= rows[k.value].debit
    ensures k.Some? ==> forall i :: 0 <= i < k.value ==> rows[i].debit < rows[k.value].debit
  {
    if |rows| == 0 then None
    else
      var earlier := TopIndex(rows[..|rows| - 1]);
      if earlier.None? || rows[|rows| - 1].debit > rows[earlier.value].debit then Some(|rows| - 1)
      else earlier
  }

  /** The filter distributes over concatenation: together with `ExpensesOnlyOne`
      this fixes the result, order and repeated transactions included. */
  lemma {:induction false} ExpensesOnlyAppend(a: seq<Transaction>, b: seq<Transaction>)
    ensures ExpensesOnly(a + b) == ExpensesOnly(a) + ExpensesOnly(b)
  {
    if |b| == 0 {
      assert a + b == a;
    } else {
      assert (a + b)[..|a + b| - 1] == a + b[..|b| - 1];
      ExpensesOnlyAppend(a, b[..|b| - 1]);
    }
  }

  /** A single transaction is kept exactly when it is an expense. */
  lemma ExpensesOnlyOne(t: Transaction)
    ensures ExpensesOnly([t]) == if t.txType == Expense then [t] else []
  {
    assert [t][..0] == [];
  }

  /** The expense categories, each once, in the order they first appear. */
  function ExpenseCategories(txs: seq<Transaction>): seq<string>
  {
    Reports.FirstSeen(ExpensesOnly(txs))
  }

  /** The expenses booked to one category. */
  function CategoryExpense(txs: seq<Transaction>, category: string): real
  {
    SumWhere(txs, TypeIn(category, Expense))
  }

  /** Position `k` of the expense categories holds a largest category total,
      and every category before it has a strictly smaller one. */
  predicate FirstLargestExpense(txs: seq<Transaction>, k: nat)
  {
    var cats := ExpenseCategories(txs);
    && k < |cats|
    && (forall j :: 0 <= j < |cats| ==> CategoryExpense(txs, cats[j]) <= CategoryExpense(txs, cats[k]))
    && (forall j :: 0 <= j < k ==> CategoryExpense(txs, cats[j]) < CategoryExpense(txs, cats[k]))
  }

  /** `topExpense`: the category with the largest expense total, the earliest
      seen on a tie (a stable descending sort, then the first entry); its
      figure is that category's expense total. */
  function TopExpense(txs: seq<Transaction>): (top: Option<Reports.Row>)
    ensures top.Some? <==> exists i :: 0 <= i < |txs| && txs[i].txType == Expense
    ensures top.Some? ==> top.value.debit == CategoryExpense(txs, top.value.account)
    ensures top.Some? ==>
      exists k: nat :: FirstLargestExpense(txs, k) && ExpenseCategories(txs)[k] == top.value.account
  {
    var expenses := ExpensesOnly(txs);
    var rows := Reports.TrialBalanceRows(expenses);
    var k := TopIndex(rows);
    if k.None? then
      assert |Reports.FirstSeen(expenses)| == 0;
      assert forall i :: 0 <= i < |txs| ==> txs[i].txType != Expense by {
        ExpensesOnlyKeepsExpenses(txs);
      }
      None
    else
      ExpensesOnlyKeepsExpenses(txs);
      TopRowIsFirstLargest(txs, k.value);
      Some(rows[k.value])
  }

  /** There is an expense transaction exactly when the filter keeps something. */
  lemma {:induction false} ExpensesOnlyKeepsExpenses(txs: seq<Transaction>)
    ensures (exists i :: 0 <= i < |txs| && txs[i].txType == Expense) <==> |ExpensesOnly(txs)| > 0
  {
    if |txs| > 0 {
      var prefix := txs[..|txs| - 1];
      ExpensesOnlyKeepsExpenses(prefix);
      assert forall i :: 0 <= i < |prefix| ==> prefix[i] == txs[i];
    }
  }

  /** Over the expenses only, a category's debit column is its expense total. */
  lemma {:induction false} ExpenseColumn(txs: seq<Transaction>, category: string)
    ensures SumWhere(ExpensesOnly(txs), Column(category, true)) == CategoryExpense(txs, category)
  {
    if |txs| > 0 {
      var prefix := txs[..|txs| - 1];
      var t := txs[|txs| - 1];
      ExpenseColumn(prefix, category);
      assert prefix + [t] == txs;
      SumWhereExtend(prefix, t, TypeIn(category, Expense));
      if t.txType == Expense {
        SumWhereExtend(ExpensesOnly(prefix), t, Column(category, true));
      }
    }
  }

  /** The row `TopIndex` picks from the expense trial balance is the first largest category. */
  lemma TopRowIsFirstLargest(txs: seq<Transaction>, k: nat)
    requires var rows := Reports.TrialBalanceRows(ExpensesOnly(txs));
      && k < |rows|
      && (forall i :: 0 <= i < |rows| ==> rows[i].debit <= rows[k].debit)
      && (forall i :: 0 <= i < k ==> rows[i].debit < rows[k].debit)
    ensures FirstLargestExpense(txs, k)
    ensures k < |ExpenseCategories(txs)|
    ensures Reports.TrialBalanceRows(ExpensesOnly(txs))[k].account == ExpenseCategories(txs)[k]
    ensures Reports.TrialBalanceRows(ExpensesOnly(txs))[k].debit
         == CategoryExpense(txs, ExpenseCategories(txs)[k])
  {
    var rows := Reports.TrialBalanceRows(ExpensesOnly(txs));
    var cats := ExpenseCategories(txs);
    assert Reports.Accounts(rows) == cats;
    forall j | 0 <= j < |cats|
      ensures CategoryExpense(txs, cats[j]) == rows[j].debit
    {
      assert cats[j] == rows[j].account;
      ExpenseColumn(txs, cats[j]);
    }
  }

  /** The aggregates `generateAIInsights` computes from the whole store. */
  function Gather(txs: seq<Transaction>, invs: seq<Invoicing.Invoice>, clientCount: nat, now: int): (f: Facts)
    ensures f.income == SumWhere(txs, OfType(Income))
    ensures f.expenses == SumWhere(txs, OfType(Expense))
    ensures f.clientCount == clientCount && f.invoiceCount == |invs|
    ensures f.pendingCount == PendingCount(invs) && f.paidCount == PaidCount(invs)
    ensures f.overdueCount == OverdueCount(invs, now)
    ensures f.overdueAmount == OverdueAmount(invs, now) && f.unpaidAmount == UnpaidAmount(invs)
    ensures f.topExpense == TopExpense(txs)
    ensures f.paidCount + f.pendingCount == f.invoiceCount && f.overdueCount <= f.pendingCount
  {
    Facts(
      SumWhere(txs, OfType(Income)), SumWhere(txs, OfType(Expense)),
      clientCount, |invs|, PendingCount(invs), OverdueCount(invs, now), OverdueAmount(invs, now),
      UnpaidAmount(invs), PaidCount(invs), TopExpense(txs))
  }

  // ---------------------------------------------------------------------------
  // Rules

  /** `profitMargin`: a percentage of income, and 0 without positive income. */
  function ProfitMargin(f: Facts): (m: real)
    ensures f.income <= 0.0 ==> m == 0.0
    ensures f.income > 0.0 ==> m * f.income == (f.income - f.expenses) * 100.0
  {
    if f.income > 0.0 then (f.income - f.expenses) / f.income * 100.0 else 0.0
  }

  /** The fallback shown when nothing else applies. */
  const GettingStarted: Insight :=
    Insight(GettingStartedHint, "Add Your First Client", Low, Note("Start tracking your business"))

  predicate LowMarginFires(f: Facts)
  {
    ProfitMargin(f) < 10.0 && f.income > 0.0
  }

  predicate ExcellentFires(f: Facts)
  {
    f.income - f.expenses > 0.0 && ProfitMargin(f) > 20.0
  }

  predicate InvestmentFires(f: Facts)
  {
    f.income > 0.0 && ProfitMargin(f) > 15.0
  }

  function When(guard: bool, insight: Insight): (r: seq<Insight>)
    ensures RulesOf(r) == if guard then {insight.rule} else {}
  {
    if guard then [insight] else []
  }

  /** The rules that produced the insights of a list. */
  function RulesOf(s: seq<Insight>): set<Rule>
  {
    if |s| == 0 then {} else RulesOf(s[..|s| - 1]) + {s[|s| - 1].rule}
  }

  lemma {:induction false} RulesOfAppend(a: seq<Insight>, b: seq<Insight>)
    ensures RulesOf(a + b) == RulesOf(a) + RulesOf(b)
  {
    if |b| == 0 {
      assert a + b == a;
    } else {
      assert (a + b)[..|a + b| - 1] == a + b[..|b| - 1];
      RulesOfAppend(a, b[..|b| - 1]);
    }
  }

  // ---------------------------------------------------------------------------
  // What each rule shows, and where

  /** The position of a rule in the list the page shows: the groups run in the
      order profit, cost, growth, risk, cash flow, each rule in its group's order,
      and nothing re-sorts the list afterwards. */
  function Rank(rule: Rule): nat
  {
    match rule
    case LowProfitMargin => 0
    case HighExpenseRatio => 1
    case ExcellentProfitability => 2
    case MajorExpenseCategory => 3
    case AutomatedCostTracking => 4
    case ClientBaseExpansion => 5
    case ClientValueOptimization => 6
    case InvestmentOpportunity => 7
    case OverdueInvoicesRisk => 8
    case HighPendingVolume => 9
    case ClientConcentrationRisk => 10
    case CashFlowConstraint => 11
    case TightCashFlowMargin => 12
    case SlowPaymentCollection => 13
    case GettingStartedHint => 14
  }

  /** The largest expense category, or an empty row when there is none. */
  function TopRow(f: Facts): Reports.Row
  {
    if f.topExpense.Some? then f.topExpense.value else Reports.Row("", 0.0, 0.0)
  }

  /** The insight each rule produces for the given facts: its action label,
      fixed priority and impact figure. */
  function Entry(f: Facts, rule: Rule): (e: Insight)
    ensures e.rule == rule
  {
    match rule
    case LowProfitMargin =>
      Insight(rule, "Review Pricing Strategy", High, Amount(f.income * 0.15 - (f.income - f.expenses)))
    case HighExpenseRatio => Insight(rule, "Analyze Expense Categories", High, Amount(f.expenses * 0.1))
    case ExcellentProfitability =>
      Insight(rule, "Explore Growth Opportunities", Low, Note("Growth potential identified"))
    case MajorExpenseCategory =>
      Insight(rule, "Review " + TopRow(f).account, Medium, Amount(TopRow(f).debit * 0.15))
    case AutomatedCostTracking => Insight(rule, "Set Up Expense Alerts", Medium, Note("Improved cost visibility"))
    case ClientBaseExpansion => Insight(rule, "Develop Marketing Strategy", Medium, Amount(f.income * 0.2))
    case ClientValueOptimization =>
      Insight(rule, "Review Client Services", Low, Amount(AverageClientValue(f) * f.clientCount as real * 0.15))
    case InvestmentOpportunity =>
      Insight(rule, "Plan Strategic Investments", Low, Note("Long-term growth potential"))
    case OverdueInvoicesRisk => Insight(rule, "Follow Up on Overdue Invoices", High, Amount(f.overdueAmount))
    case HighPendingVolume => Insight(rule, "Set Up Payment Reminders", Medium, Note("Improved cash flow"))
    case ClientConcentrationRisk =>
      Insight(rule, "Develop New Client Acquisition", Medium, Note("Reduced business risk"))
    case CashFlowConstraint => Insight(rule, "Implement Collection Strategy", High, Amount(f.unpaidAmount))
    case TightCashFlowMargin => Insight(rule, "Build Cash Reserve", High, Note("Improved financial stability"))
    case SlowPaymentCollection => Insight(rule, "Review Payment Terms", Medium, Note("Faster cash collection"))
    case GettingStartedHint => GettingStarted
  }

  /** Every insight of `r` is the one the table lists for its rule. */
  predicate FromTable(f: Facts, r: seq<Insight>)
  {
    forall i :: 0 <= i < |r| ==> r[i] == Entry(f, r[i].rule)
  }

  /** The ranks of `r` lie in `[lo, hi)` and strictly increase along the list,
      so no rule appears twice and the list is in display order. */
  predicate RankedWithin(r: seq<Insight>, lo: nat, hi: nat)
  {
    && (forall i :: 0 <= i < |r| ==> lo <= Rank(r[i].rule) < hi)
    && (forall i, j :: 0 <= i < j < |r| ==> Rank(r[i].rule) < Rank(r[j].rule))
  }

  /** A list ranked within a range is ranked within any wider one. */
  lemma Widen(r: seq<Insight>, lo: nat, hi: nat, hi': nat)
    requires RankedWithin(r, lo, hi) && hi <= hi'
    ensures RankedWithin(r, lo, hi')
  {
  }

  /** Two lists from the table, the first ranked entirely before the second, join into one. */
  lemma Chain(f: Facts, a: seq<Insight>, b: seq<Insight>, lo: nat, mid: nat, hi: nat)
    requires FromTable(f, a) && FromTable(f, b)
    requires RankedWithin(a, lo, mid) && RankedWithin(b, mid, hi) && lo <= mid <= hi
    ensures FromTable(f, a + b) && RankedWithin(a + b, lo, hi)
  {
    var ab := a + b;
    forall i | 0 <= i < |ab|
      ensures ab[i] == Entry(f, ab[i].rule) && lo <= Rank(ab[i].rule) < hi
    {
      if i < |a| {
        assert ab[i] == a[i];
      } else {
        assert ab[i] == b[i - |a|];
      }
    }
    forall i, j | 0 <= i < j < |ab|
      ensures Rank(ab[i].rule) < Rank(ab[j].rule)
    {
      if j < |a| {
        assert ab[i] == a[i] && ab[j] == a[j];
      } else if i >= |a| {
        assert ab[i] == b[i - |a|] && ab[j] == b[j - |a|];
      } else {
        assert ab[i] == a[i] && ab[j] == b[j - |a|];
      }
    }
  }

  /** A guarded table entry is a list from the table ranked at its rule alone. */
  lemma WhenFromTable(f: Facts, guard: bool, rule: Rule)
    ensures FromTable(f, When(guard, Entry(f, rule)))
    ensures RankedWithin(When(guard, Entry(f, rule)), Rank(rule), Rank(rule) + 1)
  {
  }

  /** The guard of each rule, as `generateAIInsights` tests it; the fallback is
      not a guarded rule and never fires on its own. */
  predicate Fires(f: Facts, rule: Rule)
  {
    match rule
    case LowProfitMargin => LowMarginFires(f)
    case HighExpenseRatio => f.expenses > f.income * 0.7
    case ExcellentProfitability => ExcellentFires(f)
    case MajorExpenseCategory => f.topExpense.Some? && f.topExpense.value.debit > f.expenses * 0.3
    case AutomatedCostTracking => f.expenses > 0.0
    case ClientBaseExpansion => f.clientCount < 10
    case ClientValueOptimization => AverageClientValue(f) > 0.0
    case InvestmentOpportunity => InvestmentFires(f)
    case OverdueInvoicesRisk => f.overdueCount > 0
    case HighPendingVolume => f.pendingCount > 5
    case ClientConcentrationRisk => f.clientCount < 5 && f.income > 0.0
    case CashFlowConstraint => f.unpaidAmount > f.income * 0.3
    case TightCashFlowMargin => f.expenses > f.income * 0.8
    case SlowPaymentCollection => AveragePaymentDays(f) > 45.0
    case GettingStartedHint => false
  }

  /** The rules of each group, in the order the code tests them. */
  const ProfitGroup: seq<Rule> := [LowProfitMargin, HighExpenseRatio, ExcellentProfitability]
  const CostGroup: seq<Rule> := [MajorExpenseCategory, AutomatedCostTracking]
  const GrowthGroup: seq<Rule> := [ClientBaseExpansion, ClientValueOptimization, InvestmentOpportunity]
  const RiskGroup: seq<Rule> := [OverdueInvoicesRisk, HighPendingVolume, ClientConcentrationRisk]
  const CashFlowGroup: seq<Rule> := [CashFlowConstraint, TightCashFlowMargin, SlowPaymentCollection]

  /** The ranks of a rule list lie in `[lo, hi)` and strictly increase. */
  predicate Ascending(rules: seq<Rule>, lo: nat, hi: nat)
  {
    && (forall i :: 0 <= i < |rules| ==> lo <= Rank(rules[i]) < hi)
    && (forall i, j :: 0 <= i < j < |rules| ==> Rank(rules[i]) < Rank(rules[j]))
  }

  /** A list of three rules of increasing rank. */
  lemma AscendingThree(a: Rule, b: Rule, c: Rule, lo: nat, hi: nat)
    requires lo <= Rank(a) < Rank(b) < Rank(c) < hi
    ensures Ascending([a, b, c], lo, hi)
  {
  }

  /** Each group's rules have consecutive ranks, and the groups follow one another
      in the order profit, cost, growth, risk, cash flow. */
  lemma GroupAscendingProfit()
    ensures Ascending(ProfitGroup, 0, 3)
  {
    AscendingThree(LowProfitMargin, HighExpenseRatio, ExcellentProfitability, 0, 3);
  }

  lemma GroupAscendingCost()
    ensures Ascending(CostGroup, 3, 5)
  {
  }

  lemma GroupAscendingGrowth()
    ensures Ascending(GrowthGroup, 5, 8)
  {
    AscendingThree(ClientBaseExpansion, ClientValueOptimization, InvestmentOpportunity, 5, 8);
  }

  lemma GroupAscendingRisk()
    ensures Ascending(RiskGroup, 8, 11)
  {
    AscendingThree(OverdueInvoicesRisk, HighPendingVolume, ClientConcentrationRisk, 8, 11);
  }

  lemma GroupAscendingCashFlow()
    ensures Ascending(CashFlowGroup, 11, 14)
  {
    AscendingThree(CashFlowConstraint, TightCashFlowMargin, SlowPaymentCollection, 11, 14);
  }

  /** Running a group: one `if (guard) insights.push(entry)` per rule of the list, in order. */
  function Fire(f: Facts, rules: seq<Rule>): seq<Insight>
  {
    if |rules| == 0 then []
    else When(Fires(f, rules[0]), Entry(f, rules[0])) + Fire(f, rules[1..])
  }

  /** A group yields exactly the rules of its list whose guard holds. */
  lemma {:induction false} FireRules(f: Facts, rules: seq<Rule>)
    ensures RulesOf(Fire(f, rules)) == set rule | rule in rules && Fires(f, rule)
  {
    if |rules| > 0 {
      var rest := rules[1..];
      FireRules(f, rest);
      RulesOfAppend(When(Fires(f, rules[0]), Entry(f, rules[0])), Fire(f, rest));
      assert forall rule :: rule in rules <==> rule == rules[0] || rule in rest;
    }
  }

  /** A group of three distinct rules yields exactly those of them whose guard holds. */
  lemma FireThree(f: Facts, a: Rule, b: Rule, c: Rule)
    requires a != b && a != c && b != c
    ensures var r := RulesOf(Fire(f, [a, b, c]));
            r <= {a, b, c} && (a in r <==> Fires(f, a)) && (b in r <==> Fires(f, b)) && (c in r <==> Fires(f, c))
  {
    FireRules(f, [a, b, c]);
  }

  /** A group of two distinct rules yields exactly those of them whose guard holds. */
  lemma FireTwo(f: Facts, a: Rule, b: Rule)
    requires a != b
    ensures var r := RulesOf(Fire(f, [a, b]));
            r <= {a, b} && (a in r <==> Fires(f, a)) && (b in r <==> Fires(f, b))
  {
    FireRules(f, [a, b]);
  }

  /** The fallback has no guard, so no group ever produces it. */
  lemma FireNeverFallsBack(f: Facts, rules: seq<Rule>)
    ensures GettingStartedHint !in RulesOf(Fire(f, rules))
  {
    FireRules(f, rules);
  }

  /** A rule whose guard does not hold is missing from every group. */
  lemma FireOmits(f: Facts, rules: seq<Rule>, rule: Rule)
    requires !Fires(f, rule)
    ensures rule !in RulesOf(Fire(f, rules))
  {
    FireRules(f, rules);
  }

  /** A group lists the table's entries for its firing rules, in the order of its list. */
  lemma {:induction false} FireFromTable(f: Facts, rules: seq<Rule>, lo: nat, hi: nat)
    requires Ascending(rules, lo, hi)
    ensures FromTable(f, Fire(f, rules)) && RankedWithin(Fire(f, rules), lo, hi)
  {
    if |rules| > 0 {
      var first := Rank(rules[0]);
      var rest := rules[1..];
      assert Ascending(rest, first + 1, hi) by {
        forall i | 0 <= i < |rest|
          ensures first + 1 <= Rank(rest[i]) < hi
        {
          assert rest[i] == rules[i + 1];
        }
        forall i, j | 0 <= i < j < |rest|
          ensures Rank(rest[i]) < Rank(rest[j])
        {
          assert rest[i] == rules[i + 1] && rest[j] == rules[j + 1];
        }
      }
      FireFromTable(f, rest, first + 1, hi);
      WhenFromTable(f, Fires(f, rules[0]), rules[0]);
      Chain(f, When(Fires(f, rules[0]), Entry(f, rules[0])), Fire(f, rest), first, first + 1, hi);
    }
  }

  /** Profit optimisation rules, in order; each fires exactly when its guard holds. */
  function ProfitRules(f: Facts): (r: seq<Insight>)
    ensures FromTable(f, r) && RankedWithin(r, 0, 3)
    ensures RulesOf(r) <= {LowProfitMargin, HighExpenseRatio, ExcellentProfitability}
    ensures LowProfitMargin in RulesOf(r) <==> LowMarginFires(f)
    ensures HighExpenseRatio in RulesOf(r) <==> f.expenses > f.income * 0.7
    ensures ExcellentProfitability in RulesOf(r) <==> ExcellentFires(f)
  {
    FireThree(f, LowProfitMargin, HighExpenseRatio, ExcellentProfitability);
    GroupAscendingProfit();
    FireFromTable(f, ProfitGroup, 0, 3);
    Fire(f, ProfitGroup)
  }

  /** Cost reduction rules, in order; each fires exactly when its guard holds. */
  function CostRules(f: Facts): (r: seq<Insight>)
    ensures FromTable(f, r) && RankedWithin(r, 3, 5)
    ensures RulesOf(r) <= {MajorExpenseCategory, AutomatedCostTracking}
    ensures MajorExpenseCategory in RulesOf(r)
        <==> f.topExpense.Some? && f.topExpense.value.debit > f.expenses * 0.3
    ensures AutomatedCostTracking in RulesOf(r) <==> f.expenses > 0.0
  {
    FireTwo(f, MajorExpenseCategory, AutomatedCostTracking);
    GroupAscendingCost();
    FireFromTable(f, CostGroup, 3, 5);
    Fire(f, CostGroup)
  }

  /** `avgClientValue`: income shared evenly over the clients, 0 without clients. */
  function AverageClientValue(f: Facts): (v: real)
    ensures f.clientCount == 0 ==> v == 0.0
    ensures f.clientCount > 0 ==> v * f.clientCount as real == f.income
  {
    if f.clientCount > 0 then f.income / f.clientCount as real else 0.0
  }

  /** Growth rules, in order; each fires exactly when its guard holds. */
  function GrowthRules(f: Facts): (r: seq<Insight>)
    ensures FromTable(f, r) && RankedWithin(r, 5, 8)
    ensures RulesOf(r) <= {ClientBaseExpansion, ClientValueOptimization, InvestmentOpportunity}
    ensures ClientBaseExpansion in RulesOf(r) <==> f.clientCount < 10
    ensures ClientValueOptimization in RulesOf(r) <==> AverageClientValue(f) > 0.0
    ensures InvestmentOpportunity in RulesOf(r) <==> InvestmentFires(f)
  {
    FireThree(f, ClientBaseExpansion, ClientValueOptimization, InvestmentOpportunity);
    GroupAscendingGrowth();
    FireFromTable(f, GrowthGroup, 5, 8);
    Fire(f, GrowthGroup)
  }

  /** Risk rules, in order; each fires exactly when its guard holds. */
  function RiskRules(f: Facts): (r: seq<Insight>)
    ensures FromTable(f, r) && RankedWithin(r, 8, 11)
    ensures RulesOf(r) <= {OverdueInvoicesRisk, HighPendingVolume, ClientConcentrationRisk}
    ensures OverdueInvoicesRisk in RulesOf(r) <==> f.overdueCount > 0
    ensures HighPendingVolume in RulesOf(r) <==> f.pendingCount > 5
    ensures ClientConcentrationRisk in RulesOf(r) <==> f.clientCount < 5 && f.income > 0.0
  {
    FireThree(f, OverdueInvoicesRisk, HighPendingVolume, ClientConcentrationRisk);
    GroupAscendingRisk();
    FireFromTable(f, RiskGroup, 8, 11);
    Fire(f, RiskGroup)
  }

  /** `avgPaymentDays`: 30 days times the share of paid invoices; 0 without invoices. */
  function AveragePaymentDays(f: Facts): (d: real)
    ensures f.invoiceCount == 0 ==> d == 0.0
    ensures f.invoiceCount > 0 ==> d * f.invoiceCount as real == 30.0 * f.paidCount as real
  {
    if f.invoiceCount > 0 then (f.paidCount * 30) as real / f.invoiceCount as real else 0.0
  }

  /** Cash flow rules, in order; each fires exactly when its guard holds. */
  function CashFlowRules(f: Facts): (r: seq<Insight>)
    ensures FromTable(f, r) && RankedWithin(r, 11, 14)
    ensures RulesOf(r) <= {CashFlowConstraint, TightCashFlowMargin, SlowPaymentCollection}
    ensures CashFlowConstraint in RulesOf(r) <==> f.unpaidAmount > f.income * 0.3
    ensures TightCashFlowMargin in RulesOf(r) <==> f.expenses > f.income * 0.8
    ensures SlowPaymentCollection in RulesOf(r) <==> AveragePaymentDays(f) > 45.0
  {
    FireThree(f, CashFlowConstraint, TightCashFlowMargin, SlowPaymentCollection);
    GroupAscendingCashFlow();
    FireFromTable(f, CashFlowGroup, 11, 14);
    Fire(f, CashFlowGroup)
  }

  /** The profit rules run for a category mentioning "Profit" and when no category is active. */
  predicate RunsProfit(category: string)
  {
    Contains(category, "Profit") || category == ""
  }

  /** No rule group ever produces the fallback insight. */
  lemma NoGroupFallsBack(f: Facts)
    ensures GettingStartedHint !in RulesOf(ProfitRules(f))
    ensures GettingStartedHint !in RulesOf(CostRules(f))
    ensures GettingStartedHint !in RulesOf(GrowthRules(f))
    ensures GettingStartedHint !in RulesOf(RiskRules(f))
    ensures GettingStartedHint !in RulesOf(CashFlowRules(f))
  {
    FireNeverFallsBack(f, ProfitGroup);
    FireNeverFallsBack(f, CostGroup);
    FireNeverFallsBack(f, GrowthGroup);
    FireNeverFallsBack(f, RiskGroup);
    FireNeverFallsBack(f, CashFlowGroup);
  }

  /** A rule group that runs only when the active category selects it. */
  function Group(selected: bool, rules: seq<Insight>): (r: seq<Insight>)
    ensures RulesOf(r) == if selected then RulesOf(rules) else {}
    ensures !selected ==> r == []
  {
    if selected then rules else []
  }

  /** Every rule that fires for the active category, in group order; a group
      contributes exactly when the category text selects it. */
  function FiredRules(f: Facts, category: string): (r: seq<Insight>)
    ensures RulesOf(r) ==
      RulesOf(Group(RunsProfit(category), ProfitRules(f)))
      + RulesOf(Group(Contains(category, "Cost"), CostRules(f)))
      + RulesOf(Group(Contains(category, "Growth"), GrowthRules(f)))
      + RulesOf(Group(Contains(category, "Risk"), RiskRules(f)))
      + RulesOf(Group(Contains(category, "Cash Flow"), CashFlowRules(f)))
    ensures GettingStartedHint !in RulesOf(r)
    ensures FromTable(f, r) && RankedWithin(r, 0, 14)
  {
    var p := Group(RunsProfit(category), ProfitRules(f));
    var c := Group(Contains(category, "Cost"), CostRules(f));
    var g := Group(Contains(category, "Growth"), GrowthRules(f));
    var k := Group(Contains(category, "Risk"), RiskRules(f));
    var w := Group(Contains(category, "Cash Flow"), CashFlowRules(f));
    NoGroupFallsBack(f);
    GroupFromTable(f, RunsProfit(category), ProfitRules(f), 0, 3);
    GroupFromTable(f, Contains(category, "Cost"), CostRules(f), 3, 5);
    GroupFromTable(f, Contains(category, "Growth"), GrowthRules(f), 5, 8);
    GroupFromTable(f, Contains(category, "Risk"), RiskRules(f), 8, 11);
    GroupFromTable(f, Contains(category, "Cash Flow"), CashFlowRules(f), 11, 14);
    JoinGroups(f, p, c, g, k, w);
    RulesOfAppend(p, c);
    RulesOfAppend(p + c, g);
    RulesOfAppend(p + c + g, k);
    RulesOfAppend(p + c + g + k, w);
    p + c + g + k + w
  }

  /** A group that does not run contributes the empty list, which is trivially in order. */
  lemma GroupFromTable(f: Facts, selected: bool, rules: seq<Insight>, lo: nat, hi: nat)
    requires FromTable(f, rules) && RankedWithin(rules, lo, hi)
    ensures FromTable(f, Group(selected, rules)) && RankedWithin(Group(selected, rules), lo, hi)
  {
  }

  /** The five groups, each from the table in its own rank range, join in
      display order: every rule at most once, profit rules first. */
  lemma JoinGroups(f: Facts, p: seq<Insight>, c: seq<Insight>, g: seq<Insight>, k: seq<Insight>, w: seq<Insight>)
    requires FromTable(f, p) && RankedWithin(p, 0, 3)
    requires FromTable(f, c) && RankedWithin(c, 3, 5)
    requires FromTable(f, g) && RankedWithin(g, 5, 8)
    requires FromTable(f, k) && RankedWithin(k, 8, 11)
    requires FromTable(f, w) && RankedWithin(w, 11, 14)
    ensures FromTable(f, p + c + g + k + w) && RankedWithin(p + c + g + k + w, 0, 14)
  {
    Chain(f, p, c, 0, 3, 5);
    Chain(f, p + c, g, 0, 5, 8);
    Chain(f, p + c + g, k, 0, 8, 11);
    Chain(f, p + c + g + k, w, 0, 11, 14);
  }

  /** `generateAIInsights`: the fired rules, or the single fallback when none fired.
      The list is never empty and carries the fallback exactly when no rule fired. */
  function GenerateInsights(f: Facts, category: string): (r: seq<Insight>)
    ensures |r| >= 1
    ensures GettingStartedHint in RulesOf(r) <==> FiredRules(f, category) == []
    ensures FiredRules(f, category) == [] ==> r == [GettingStarted]
    ensures FiredRules(f, category) != [] ==> r == FiredRules(f, category)
  {
    var fired := FiredRules(f, category);
    if |fired| == 0 then
      assert [GettingStarted][..0] == [];
      [GettingStarted]
    else fired
  }

  /** What the page shows: the table's entries, each rule at most once, in display
      order, with the fallback only ever alone. */
  lemma InsightsFromTable(f: Facts, category: string)
    ensures FromTable(f, GenerateInsights(f, category)) && RankedWithin(GenerateInsights(f, category), 0, 15)
  {
    var fired := FiredRules(f, category);
    if fired == [] {
      FallbackFromTable(f);
      assert GenerateInsights(f, category) == [GettingStarted];
    } else {
      Widen(fired, 0, 14, 15);
      assert GenerateInsights(f, category) == fired;
    }
  }

  /** The fallback alone is the table's entry, ranked last. */
  lemma FallbackFromTable(f: Facts)
    ensures FromTable(f, [GettingStarted]) && RankedWithin([GettingStarted], 14, 15)
  {
    assert Entry(f, GettingStartedHint) == GettingStarted;
  }

  // ---------------------------------------------------------------------------
  // Properties of the rules

  /** Comparing through a positive factor. */
  lemma ScaleByPositive(a: real, b: real, c: real)
    requires c > 0.0
    ensures a < b <==> a * c < b * c
    ensures a > b <==> a * c > b * c
  {
    if a < b {
      assert (b - a) * c > 0.0;
    }
    if a > b {
      assert (a - b) * c > 0.0;
    }
    if a == b {
      assert a * c == b * c;
    }
  }

  /** The low-margin rule fires exactly when there is income and expenses exceed 90% of it. */
  lemma LowMarginIff(f: Facts)
    ensures LowMarginFires(f) <==> f.income > 0.0 && f.expenses > 0.9 * f.income
  {
    if f.income > 0.0 {
      ScaleByPositive(ProfitMargin(f), 10.0, f.income);
    }
  }

  /** "Excellent Profitability" fires exactly when there is income and expenses stay below 80% of it. */
  lemma ExcellentIff(f: Facts)
    ensures ExcellentFires(f) <==> f.income > 0.0 && f.expenses < 0.8 * f.income
  {
    if f.income > 0.0 {
      assert ProfitMargin(f) * f.income == (f.income - f.expenses) * 100.0;
      ScaleByPositive(ProfitMargin(f), 20.0, f.income);
    }
  }

  /** "Investment Opportunity" fires exactly when there is income and expenses stay below 85% of it. */
  lemma InvestmentIff(f: Facts)
    ensures InvestmentFires(f) <==> f.income > 0.0 && f.expenses < 0.85 * f.income
  {
    if f.income > 0.0 {
      ScaleByPositive(ProfitMargin(f), 15.0, f.income);
    }
  }

  /** A rule whose guard does not hold is missing from all five groups. */
  lemma AbsentFromGroups(f: Facts, rule: Rule)
    requires !Fires(f, rule)
    ensures rule !in RulesOf(ProfitRules(f)) && rule !in RulesOf(CostRules(f))
    ensures rule !in RulesOf(GrowthRules(f)) && rule !in RulesOf(RiskRules(f))
    ensures rule !in RulesOf(CashFlowRules(f))
  {
    FireOmits(f, ProfitGroup, rule);
    FireOmits(f, CostGroup, rule);
    FireOmits(f, GrowthGroup, rule);
    FireOmits(f, RiskGroup, rule);
    FireOmits(f, CashFlowGroup, rule);
  }

  /** A rule missing from a group is missing whether or not the group runs. */
  lemma GroupOmits(rule: Rule, selected: bool, rules: seq<Insight>)
    requires rule !in RulesOf(rules)
    ensures rule !in RulesOf(Group(selected, rules))
  {
  }

  /** A rule whose guard does not hold is not among the fired rules, whatever the category. */
  lemma AbsentFromFired(f: Facts, category: string, rule: Rule)
    requires !Fires(f, rule)
    ensures rule !in RulesOf(FiredRules(f, category))
  {
    AbsentFromGroups(f, rule);
    GroupOmits(rule, RunsProfit(category), ProfitRules(f));
    GroupOmits(rule, Contains(category, "Cost"), CostRules(f));
    GroupOmits(rule, Contains(category, "Growth"), GrowthRules(f));
    GroupOmits(rule, Contains(category, "Risk"), RiskRules(f));
    GroupOmits(rule, Contains(category, "Cash Flow"), CashFlowRules(f));
  }

  /** A rule whose guard does not hold never appears, whatever the category;
      the fallback is the one insight that appears without a guard. */
  lemma AbsentFromEveryGroup(f: Facts, category: string, rule: Rule)
    requires rule != GettingStartedHint && !Fires(f, rule)
    ensures rule !in RulesOf(GenerateInsights(f, category))
  {
    var fired := FiredRules(f, category);
    if fired == [] {
      assert GenerateInsights(f, category) == [GettingStarted];
      assert [GettingStarted][..0] == [];
    } else {
      AbsentFromFired(f, category, rule);
      assert GenerateInsights(f, category) == fired;
    }
  }

  /** Without income the low-margin insight never appears, whatever the category. */
  lemma NoLowMarginWithoutIncome(f: Facts, category: string)
    requires f.income <= 0.0
    ensures LowProfitMargin !in RulesOf(GenerateInsights(f, category))
  {
    assert !Fires(f, LowProfitMargin);
    AbsentFromEveryGroup(f, category, LowProfitMargin);
  }

  /** The low-margin and excellent-profitability insights never appear together. */
  lemma LowMarginExcludesExcellent(f: Facts)
    ensures !(LowMarginFires(f) && ExcellentFires(f))
  {
    LowMarginIff(f);
    ExcellentIff(f);
  }

  lemma QuotientAtMost(q: real, m: real, n: real)
    requires n > 0.0 && q <= m * n
    ensures q / n <= m
  {
    ScaleByPositive(q / n, m, n);
    assert q / n * n == q;
  }

  /** Paid invoices are at most all invoices, so the average is at most 30 days
      and "Slow Payment Collection" (above 45) can never fire. */
  lemma SlowPaymentNeverFires(f: Facts)
    requires f.paidCount <= f.invoiceCount
    ensures AveragePaymentDays(f) <= 30.0
    ensures SlowPaymentCollection !in RulesOf(CashFlowRules(f))
  {
    if f.invoiceCount > 0 {
      var n := f.invoiceCount as real;
      var q := (f.paidCount * 30) as real;
      assert q <= 30.0 * n;
      QuotientAtMost(q, 30.0, n);
    }
    assert !(AveragePaymentDays(f) > 45.0);
  }

  /** The facts gathered from any store meet that requirement. */
  lemma GatheredSlowPaymentNeverFires(txs: seq<Transaction>, invs: seq<Invoicing.Invoice>, clientCount: nat, now: int)
    ensures AveragePaymentDays(Gather(txs, invs, clientCount, now)) <= 30.0
  {
    SlowPaymentNeverFires(Gather(txs, invs, clientCount, now));
  }

  /** With no category selected exactly the profit rules run; on an empty store
      they fire nothing and the single fallback appears. */
  lemma DefaultCategoryRunsProfitRules(f: Facts)
    ensures FiredRules(f, "") == ProfitRules(f)
    ensures f.income == 0.0 && f.expenses == 0.0 ==> GenerateInsights(f, "") == [GettingStarted]
  {
    EmptyContainsOnlyEmpty("Cost");
    EmptyContainsOnlyEmpty("Growth");
    EmptyContainsOnlyEmpty("Risk");
    EmptyContainsOnlyEmpty("Cash Flow");
  }

  /** The gathered facts never let "Slow Payment Collection" fire, in any category. */
  lemma NoSlowPaymentInsight(f: Facts, category: string)
    requires f.paidCount <= f.invoiceCount
    ensures SlowPaymentCollection !in RulesOf(GenerateInsights(f, category))
  {
    SlowPaymentNeverFires(f);
    assert !Fires(f, SlowPaymentCollection);
    AbsentFromEveryGroup(f, category, SlowPaymentCollection);
  }

  /** `generateAIInsights` over the whole store: the aggregates, then the rules.
      The list is never empty, "Slow Payment Collection" never appears, and
      "Low Profit Margin" appears only when the income transactions sum above zero. */
  function InsightsFor(txs: seq<Transaction>, invs: seq<Invoicing.Invoice>, clientCount: nat, now: int,
                       category: string): (r: seq<Insight>)
    ensures |r| >= 1
    ensures SlowPaymentCollection !in RulesOf(r)
    ensures LowProfitMargin in RulesOf(r) ==> SumWhere(txs, OfType(Income)) > 0.0
  {
    var f := Gather(txs, invs, clientCount, now);
    NoSlowPaymentInsight(f, category);
    if f.income <= 0.0 then
      NoLowMarginWithoutIncome(f, category);
      GenerateInsights(f, category)
    else
      GenerateInsights(f, category)
  }

  /** An empty store with no category selected shows exactly the fallback insight. */
  lemma EmptyStoreGetsFallback(clientCount: nat, now: int)
    ensures InsightsFor([], [], clientCount, now, "") == [GettingStarted]
  {
    DefaultCategoryRunsProfitRules(Gather([], [], clientCount, now));
  }

  /** With no income, the high-expense-ratio insight fires exactly when there is any expense. */
  lemma HighExpenseRatioWithoutIncome(f: Facts)
    requires f.income == 0.0
    ensures (f.expenses > f.income * 0.7) <==> f.expenses > 0.0
  {
  }

  /** The client-value insight fires exactly when there are clients and income,
      and its figure is 15% of income. */
  lemma ClientValueIff(f: Facts)
    ensures AverageClientValue(f) > 0.0 <==> f.clientCount > 0 && f.income > 0.0
    ensures f.clientCount > 0 ==> AverageClientValue(f) * f.clientCount as real * 0.15 == f.income * 0.15
  {
    if f.clientCount > 0 {
      var n := f.clientCount as real;
      assert AverageClientValue(f) * n == f.income;
    }
  }

  // ---------------------------------------------------------------------------
  // Action dispatch

  /** Where `handleInsightAction` leads: the client section with the client form
      open, the invoice section, the accounting section with the transaction
      form open, the reports section, or a notice echoing the label. */
  datatype Target = ClientForm | InvoiceList | TransactionForm | ReportList | Notice(message: string)

  /** The first-match `includes` chain: a label naming a client always opens
      the client form, and an unmatched label is echoed unchanged. */
  function ActionTarget(action: string): (t: Target)
    ensures t == ClientForm <==> Contains(action, "Client") || Contains(action, "client")
    ensures t.Notice? ==> t.message == action
  {
    if Contains(action, "Client") || Contains(action, "client") then ClientForm
    else if Contains(action, "Invoice") || Contains(action, "invoice") || Contains(action, "Payment") then InvoiceList
    else if Contains(action, "Transaction") || Contains(action, "Expense") || Contains(action, "expense") then TransactionForm
    else if Contains(action, "Report") || Contains(action, "report") then ReportList
    else Notice(action)
  }

  /** The same dispatch written as a table of keyword lists, tried in order. */
  const DispatchTable: seq<(Target, seq<string>)> := [
    (ClientForm, ["Client", "client"]),
    (InvoiceList, ["Invoice", "invoice", "Payment"]),
    (TransactionForm, ["Transaction", "Expense", "expense"]),
    (ReportList, ["Report", "report"])
  ]

  predicate MentionsAny(action: string, keywords: seq<string>)
  {
    exists k :: k in keywords && Contains(action, k)
  }

  lemma MentionsEitherOf(action: string, a: string, b: string)
    ensures MentionsAny(action, [a, b]) <==> Contains(action, a) || Contains(action, b)
  {
    if Contains(action, a) {
      assert a in [a, b];
    }
    if Contains(action, b) {
      assert b in [a, b];
    }
  }

  lemma MentionsOneOf(action: string, a: string, b: string, c: string)
    ensures MentionsAny(action, [a, b, c]) <==> Contains(action, a) || Contains(action, b) || Contains(action, c)
  {
    if Contains(action, a) {
      assert a in [a, b, c];
    }
    if Contains(action, b) {
      assert b in [a, b, c];
    }
    if Contains(action, c) {
      assert c in [a, b, c];
    }
  }

  function TableTarget(action: string, table: seq<(Target, seq<string>)>): Target
  {
    if |table| == 0 then Notice(action)
    else if MentionsAny(action, table[0].1) then table[0].0
    else TableTarget(action, table[1..])
  }

  /** The `if` chain and the table agree on every label: the first group with a
      matching keyword wins, and a label matching none gives the notice. */
  lemma ActionTargetIsFirstMatch(action: string)
    ensures ActionTarget(action) == TableTarget(action, DispatchTable)
  {
    var t := DispatchTable;
    assert MentionsAny(action, t[0].1) <==> Contains(action, "Client") || Contains(action, "client") by {
      assert t[0].1 == ["Client", "client"];
      MentionsEitherOf(action, "Client", "client");
    }
    assert MentionsAny(action, t[1].1) <==> Contains(action, "Invoice") || Contains(action, "invoice") || Contains(action, "Payment") by {
      assert t[1].1 == ["Invoice", "invoice", "Payment"];
      MentionsOneOf(action, "Invoice", "invoice", "Payment");
    }
    assert MentionsAny(action, t[2].1) <==> Contains(action, "Transaction") || Contains(action, "Expense") || Contains(action, "expense") by {
      assert t[2].1 == ["Transaction", "Expense", "expense"];
      MentionsOneOf(action, "Transaction", "Expense", "expense");
    }
    assert MentionsAny(action, t[3].1) <==> Contains(action, "Report") || Contains(action, "report") by {
      assert t[3].1 == ["Report", "report"];
      MentionsEitherOf(action, "Report", "report");
    }
    assert TableTarget(action, t[4..]) == Notice(action) by {
      assert t[4..] == [];
    }
    assert TableTarget(action, t[3..]) == (if MentionsAny(action, t[3].1) then ReportList else Notice(action)) by {
      assert t[3..][1..] == t[4..];
    }
    assert TableTarget(action, t[2..]) == (if MentionsAny(action, t[2].1) then TransactionForm else TableTarget(action, t[3..])) by {
      assert t[2..][1..] == t[3..];
    }
    assert TableTarget(action, t[1..]) == (if MentionsAny(action, t[1].1) then InvoiceList else TableTarget(action, t[2..])) by {
      assert t[1..][1..] == t[2..];
    }
  }

  /** The fallback insight's button opens the client form. */
  lemma FallbackActionOpensClientForm()
    ensures ActionTarget(GettingStarted.action) == ClientForm
  {
    assert OccursAt(GettingStarted.action, "Client", 15);
  }
}
