/**
 * The dashboard: the reporting period chosen in the period select, the
 * window of instants it covers, the headline figures over the transactions
 * and invoices dated inside that window, and the per-label chart series.
 *
 * Instants are milliseconds; a date-only record value is read as midnight
 * of its day (`Midnight`). The calendar arithmetic of `Date`
 * (month overflow, daylight saving, local midnight) is not computed here:
 * its readings arrive as a `Calendar`.
 */
module Dashboard {
  import opened Ledger
  import Tax
  import opened Instants
  import Invoicing
  import Insights

  // ---------------------------------------------------------------------------
  // Periods and windows

  datatype Period = Today | Week | Month | Quarter | Year | OtherPeriod(name: string)

  /** The select's value; an empty value means the month. */
  function ParsePeriod(value: string): (p: Period)
    ensures value == "" ==> p == Month
    ensures p.OtherPeriod? <==> value !in {"", "today", "week", "month", "quarter", "year"}
    ensures p.OtherPeriod? ==> p.name == value
  {
    match value
    case "" => Month
    case "today" => Today
    case "week" => Week
    case "month" => Month
    case "quarter" => Quarter
    case "year" => Year
    case _ => OtherPeriod(value)
  }

  /** The option value that selects a period. */
  function PeriodValue(p: Period): string
  {
    match p
    case Today => "today"
    case Week => "week"
    case Month => "month"
    case Quarter => "quarter"
    case Year => "year"
    case OtherPeriod(name) => name
  }

  /** Reading back the value of a period gives the same period, except for an
      unrecognised value that happens to spell a known one (or is empty). */
  lemma PeriodRoundTrip(p: Period)
    requires p.OtherPeriod? ==> p.name !in {"", "today", "week", "month", "quarter", "year"}
    ensures ParsePeriod(PeriodValue(p)) == p
  {
  }

  /** The readings `getDateRange` takes from the clock and the local calendar:
      now, the start of today, and the same time of day a week, a month, three
      months and a year back. */
  datatype Calendar = Calendar(now: int, startOfToday: int, weekAgo: int, monthAgo: int,
                               quarterAgo: int, yearAgo: int)

  /** What a real calendar delivers: each reading lies no later than the one for a shorter period. */
  predicate Ordered(c: Calendar)
  {
    c.yearAgo <= c.quarterAgo <= c.monthAgo <= c.weekAgo <= c.startOfToday <= c.now
  }

  /** A closed interval of instants. */
  datatype Window = Window(start: int, end: int)

  predicate Covers(w: Window, instant: int)
  {
    w.start <= instant <= w.end
  }

  /** `getDateRange`: the window ends now; an unknown period leaves the start at now too. */
  function DateRange(p: Period, c: Calendar): (w: Window)
    ensures w.end == c.now
    ensures p.OtherPeriod? ==> w.start == c.now
    ensures Ordered(c) ==> Covers(w, c.now)
  {
    var start :=
      match p
      case Today => c.startOfToday
      case Week => c.weekAgo
      case Month => c.monthAgo
      case Quarter => c.quarterAgo
      case Year => c.yearAgo
      case OtherPeriod(_) => c.now;
    Window(start, c.now)
  }

  /** On an ordered calendar a longer period's window contains a shorter one's. */
  lemma WindowsNest(c: Calendar)
    requires Ordered(c)
    ensures DateRange(Year, c).start <= DateRange(Quarter, c).start <= DateRange(Month, c).start
         <= DateRange(Week, c).start <= DateRange(Today, c).start
  {
  }

  // ---------------------------------------------------------------------------
  // Records in a window

  /** The transactions whose date falls in the window, as a range of whole days. */
  function InWindow(txs: seq<Transaction>, w: Window): (r: seq<Transaction>)
    ensures |r| <= |txs|
    ensures forall i :: 0 <= i < |r| ==> Covers(w, Midnight(r[i].date))
  {
    InRange(txs, FirstDay(w.start), LastDay(w.end))
  }

  /** The day range selects exactly the transactions whose midnight the window covers. */
  lemma InWindowIffCovered(txs: seq<Transaction>, w: Window, t: Transaction)
    ensures t in InWindow(txs, w) <==> t in txs && Covers(w, Midnight(t.date))
  {
    var from := FirstDay(w.start);
    var to := LastDay(w.end);
    if t in txs && Covers(w, Midnight(t.date)) {
      var i :| 0 <= i < |txs| && txs[i] == t;
      assert from <= txs[i].date <= to;
    }
  }

  /** The invoices whose date the window covers, in order. */
  function InvoicesInWindow(invs: seq<Invoicing.Invoice>, w: Window): (r: seq<Invoicing.Invoice>)
    ensures forall i :: 0 <= i < |r| ==> Covers(w, Midnight(r[i].date))
    ensures forall i :: 0 <= i < |invs| && Covers(w, Midnight(invs[i].date)) ==> invs[i] in r
    ensures forall inv :: inv in r ==> inv in invs
    ensures |r| <= |invs|
  {
    if |invs| == 0 then []
    else
      var last := invs[|invs| - 1];
      var rest := InvoicesInWindow(invs[..|invs| - 1], w);
      if Covers(w, Midnight(last.date)) then rest + [last] else rest
  }

  /** The filter distributes over concatenation: together with `InvoicesInWindowOne`
      this fixes the result, order and repeated invoices included. */
  lemma {:induction false} InvoicesInWindowAppend(a: seq<Invoicing.Invoice>, b: seq<Invoicing.Invoice>, w: Window)
    ensures InvoicesInWindow(a + b, w) == InvoicesInWindow(a, w) + InvoicesInWindow(b, w)
  {
    if |b| == 0 {
      assert a + b == a;
    } else {
      assert (a + b)[..|a + b| - 1] == a + b[..|b| - 1];
      InvoicesInWindowAppend(a, b[..|b| - 1], w);
    }
  }

  /** A single invoice is kept exactly when the window covers its date. */
  lemma InvoicesInWindowOne(inv: Invoicing.Invoice, w: Window)
    ensures InvoicesInWindow([inv], w) == if Covers(w, Midnight(inv.date)) then [inv] else []
  {
    assert [inv][..0] == [];
  }

  // ---------------------------------------------------------------------------
  // Headline figures

  datatype Metrics = Metrics(revenue: real, expenses: real, profit: real, activeClients: nat,
                             pendingInvoices: nat, taxLiability: real)

  /** `updateDashboard`: the figures over the records dated inside the window;
      the client count is not filtered. */
  function DashboardMetrics(txs: seq<Transaction>, invs: seq<Invoicing.Invoice>, clientCount: nat,
                            w: Window): (m: Metrics)
    ensures m.revenue == SumWhere(InWindow(txs, w), OfType(Income))
    ensures m.expenses == SumWhere(InWindow(txs, w), OfType(Expense))
    ensures m.profit == m.revenue - m.expenses
    ensures m.taxLiability == 0.18 * m.revenue
    ensures m.activeClients == clientCount
    ensures m.pendingInvoices == Insights.PendingCount(InvoicesInWindow(invs, w))
    ensures m.pendingInvoices <= |InvoicesInWindow(invs, w)| <= |invs|
  {
    var inWindow := InWindow(txs, w);
    var revenue := SumWhere(inWindow, OfType(Income));
    var expenses := SumWhere(inWindow, OfType(Expense));
    Metrics(revenue, expenses, revenue - expenses, clientCount,
            Insights.PendingCount(InvoicesInWindow(invs, w)), Tax.TaxLiability(inWindow))
  }

  /** A transaction dated outside the window changes none of the figures. */
  lemma MetricsIgnoreOutside(txs: seq<Transaction>, invs: seq<Invoicing.Invoice>, clientCount: nat,
                             w: Window, t: Transaction)
    requires !Covers(w, Midnight(t.date))
    ensures DashboardMetrics(txs + [t], invs, clientCount, w) == DashboardMetrics(txs, invs, clientCount, w)
  {
    InRangeIgnoresOutside(txs, t, FirstDay(w.start), LastDay(w.end));
  }

  /** With non-negative amounts, a longer period never shows less revenue or
      fewer expenses than a shorter one on the same calendar. */
  lemma LongerPeriodShowsMore(txs: seq<Transaction>, invs: seq<Invoicing.Invoice>, clientCount: nat,
                              c: Calendar, shorter: Period, longer: Period)
    requires Ordered(c) && NonNegativeAmounts(txs)
    requires DateRange(longer, c).start <= DateRange(shorter, c).start
    ensures DashboardMetrics(txs, invs, clientCount, DateRange(shorter, c)).revenue
         <= DashboardMetrics(txs, invs, clientCount, DateRange(longer, c)).revenue
    ensures DashboardMetrics(txs, invs, clientCount, DateRange(shorter, c)).expenses
         <= DashboardMetrics(txs, invs, clientCount, DateRange(longer, c)).expenses
  {
    var ws := DateRange(shorter, c);
    var wl := DateRange(longer, c);
    var ks := FirstDay(ws.start);
    var kl := FirstDay(wl.start);
    assert ws.start <= Midnight(ks);
    assert kl <= ks;
    InRangeSumMonotone(txs, OfType(Income), ks, LastDay(c.now), kl, LastDay(c.now));
    InRangeSumMonotone(txs, OfType(Expense), ks, LastDay(c.now), kl, LastDay(c.now));
  }

  // ---------------------------------------------------------------------------
  // Charts

  /** How many labels `getChartLabels` produces for a period: hours, days, weeks or months. */
  function LabelCount(p: Period): (n: nat)
    ensures n == 0 <==> p.OtherPeriod?
  {
    match p
    case Today => 24
    case Week => 7
    case Month => 4
    case Quarter => 3
    case Year => 12
    case OtherPeriod(_) => 0
  }

  function Sum(s: seq<real>): real
  {
    if |s| == 0 then 0.0 else Sum(s[..|s| - 1]) + s[|s| - 1]
  }

  /** A total spread evenly over `n` points, as every chart series is. */
  function Spread(total: real, n: nat): (s: seq<real>)
    ensures |s| == n
    ensures forall i :: 0 <= i < n ==> s[i] == total / n as real
  {
    if n == 0 then [] else seq(n, _ => total / n as real)
  }

  lemma {:induction false} SumOfConstant(s: seq<real>, x: real)
    requires forall i :: 0 <= i < |s| ==> s[i] == x
    ensures Sum(s) == |s| as real * x
  {
    if |s| > 0 {
      SumOfConstant(s[..|s| - 1], x);
    }
  }

  /** The chart data of `updateCharts`: one point per label in each series. */
  datatype Chart = Chart(revenue: seq<real>, expenses: seq<real>, profit: seq<real>)

  function Charts(txs: seq<Transaction>, p: Period): (c: Chart)
    ensures |c.revenue| == |c.expenses| == |c.profit| == LabelCount(p)
  {
    var n := LabelCount(p);
    var income := SumWhere(txs, OfType(Income));
    var expenses := SumWhere(txs, OfType(Expense));
    Chart(Spread(income, n), Spread(expenses, n),
          if n == 0 then [] else seq(n, _ => income / n as real - expenses / n as real))
  }

  /** Spread over at least one point, a total adds back up to itself. */
  lemma SpreadAddsUp(total: real, n: nat)
    requires n > 0
    ensures Sum(Spread(total, n)) == total
  {
    SumOfConstant(Spread(total, n), total / n as real);
  }

  lemma SplitDifference(a: real, b: real, n: real)
    requires n > 0.0
    ensures a / n - b / n == (a - b) / n
    ensures (a - b) / n >= 0.0 <==> a >= b
  {
  }

  /** With any labels at all, each series adds back up to its total, and every
      profit bar has the sign of the overall profit (which picks its colour). */
  lemma ChartsAddUp(txs: seq<Transaction>, p: Period)
    requires LabelCount(p) > 0
    ensures Sum(Charts(txs, p).revenue) == SumWhere(txs, OfType(Income))
    ensures Sum(Charts(txs, p).expenses) == SumWhere(txs, OfType(Expense))
    ensures Sum(Charts(txs, p).profit) == SumWhere(txs, OfType(Income)) - SumWhere(txs, OfType(Expense))
    ensures forall i :: 0 <= i < |Charts(txs, p).profit| ==>
      (Charts(txs, p).profit[i] >= 0.0 <==> SumWhere(txs, OfType(Income)) >= SumWhere(txs, OfType(Expense)))
  {
    var n := LabelCount(p);
    var income := SumWhere(txs, OfType(Income));
    var expenses := SumWhere(txs, OfType(Expense));
    var c := Charts(txs, p);
    SpreadAddsUp(income, n);
    SpreadAddsUp(expenses, n);
    SplitDifference(income, expenses, n as real);
    assert c.profit == Spread(income - expenses, n);
    SpreadAddsUp(income - expenses, n);
  }
}
