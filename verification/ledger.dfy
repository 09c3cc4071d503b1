/**
 * Transactions as the browser code sees them after parsing, and the one
 * aggregation primitive every report and insight is built from: summing the
 * amounts of the transactions a selector picks, in array order (the code's
 * `filter(...).reduce((sum, t) => sum + parseFloat(t.amount || 0), 0)`).
 */
module Ledger {

  /** The `type` field. The form offers the first four; anything else a record
      may carry is kept verbatim, because the trial balance treats it as a credit. */
  datatype TxType = Income | Expense | Asset | Liability | OtherType(name: string)

  /** Reading the stored `type` string. */
  function ParseTxType(s: string): (ty: TxType)
    ensures ty.OtherType? <==> s !in {"income", "expense", "asset", "liability"}
    ensures ty.OtherType? ==> ty.name == s
  {
    if s == "income" then Income
    else if s == "expense" then Expense
    else if s == "asset" then Asset
    else if s == "liability" then Liability
    else OtherType(s)
  }

  /** A transaction; `date` is a day number and `amount` is
      `parseFloat(t.amount || 0)`, so a missing amount is 0. */
  datatype Transaction = Transaction(
    id: string,
    date: int,
    clientId: string,
    txType: TxType,
    category: string,
    amount: real)

  /** The trial balance's column rule: expense and asset amounts are debits,
      every other type (including unknown ones) is a credit. */
  predicate IsDebit(ty: TxType)
  {
    ty.Expense? || ty.Asset?
  }

  /** Which transactions a sum takes. */
  datatype Selector =
    | OfType(ty: TxType)                     // t.type === ty
    | Column(account: string, debit: bool)   // category row, debit or credit column
    | Side(debit: bool)                      // the whole debit or credit column
    | TypeIn(account: string, ty: TxType)    // one category's transactions of one type
    | Everything

  predicate Selects(sel: Selector, t: Transaction)
  {
    match sel
    case OfType(ty) => t.txType == ty
    case Column(account, debit) => t.category == account && IsDebit(t.txType) == debit
    case Side(debit) => IsDebit(t.txType) == debit
    case TypeIn(account, ty) => t.category == account && t.txType == ty
    case Everything => true
  }

  /** Left-to-right sum of the selected amounts. */
  function SumWhere(txs: seq<Transaction>, sel: Selector): real
  {
    if |txs| == 0 then 0.0
    else
      var last := txs[|txs| - 1];
      SumWhere(txs[..|txs| - 1], sel) + (if Selects(sel, last) then last.amount else 0.0)
  }

  /** Sums split over concatenation. */
  lemma {:induction false} SumWhereAppend(a: seq<Transaction>, b: seq<Transaction>, sel: Selector)
    ensures SumWhere(a + b, sel) == SumWhere(a, sel) + SumWhere(b, sel)
  {
    if |b| > 0 {
      assert (a + b)[..|a + b| - 1] == a + b[..|b| - 1];
      SumWhereAppend(a, b[..|b| - 1], sel);
    } else {
      assert a + b == a;
    }
  }

  /** A sum only sees the transactions its selector picks: adding one it does
      not pick changes nothing, adding one it picks adds exactly that amount. */
  lemma SumWhereExtend(txs: seq<Transaction>, t: Transaction, sel: Selector)
    ensures SumWhere(txs + [t], sel)
         == SumWhere(txs, sel) + (if Selects(sel, t) then t.amount else 0.0)
  {
    assert (txs + [t])[..|txs|] == txs;
  }

  /** When every amount is non-negative, every sum is non-negative. */
  predicate NonNegativeAmounts(txs: seq<Transaction>)
  {
    forall i :: 0 <= i < |txs| ==> txs[i].amount >= 0.0
  }

  lemma {:induction false} SumWhereNonNegative(txs: seq<Transaction>, sel: Selector)
    requires NonNegativeAmounts(txs)
    ensures SumWhere(txs, sel) >= 0.0
  {
    if |txs| > 0 {
      SumWhereNonNegative(txs[..|txs| - 1], sel);
    }
  }

  /** Each transaction lands in exactly one of a category's two columns, so the
      debit and credit sums of a category add up to that category's total. */
  lemma {:induction false} ColumnsPartitionCategory(txs: seq<Transaction>, account: string)
    ensures SumWhere(txs, Column(account, true)) + SumWhere(txs, Column(account, false))
         == CategoryTotal(txs, account)
  {
    if |txs| > 0 {
      ColumnsPartitionCategory(txs[..|txs| - 1], account);
    }
  }

  /** Debits and credits together are all the amounts. */
  lemma {:induction false} SidesPartitionEverything(txs: seq<Transaction>)
    ensures SumWhere(txs, Side(true)) + SumWhere(txs, Side(false)) == SumWhere(txs, Everything)
  {
    if |txs| > 0 {
      SidesPartitionEverything(txs[..|txs| - 1]);
    }
  }

  /** Sum of the amounts whose category is `account`, whatever their type. */
  function CategoryTotal(txs: seq<Transaction>, account: string): real
  {
    if |txs| == 0 then 0.0
    else
      var last := txs[|txs| - 1];
      CategoryTotal(txs[..|txs| - 1], account) + (if last.category == account then last.amount else 0.0)
  }

  /** The transactions dated inside the inclusive range `[from, to]`, in their
      original order (`tDate >= from && tDate <= to`). */
  function InRange(txs: seq<Transaction>, from: int, to: int): (r: seq<Transaction>)
    ensures forall i :: 0 <= i < |r| ==> from <= r[i].date <= to
    ensures forall i :: 0 <= i < |txs| && from <= txs[i].date <= to ==> txs[i] in r
    ensures forall t :: t in r ==> t in txs
    ensures |r| <= |txs|
  {
    if |txs| == 0 then []
    else
      var last := txs[|txs| - 1];
      var rest := InRange(txs[..|txs| - 1], from, to);
      if from <= last.date <= to then rest + [last] else rest
  }

  /** The filter distributes over concatenation: together with `InRangeOne` this
      fixes the result completely, order and repeated transactions included. */
  lemma {:induction false} InRangeAppend(a: seq<Transaction>, b: seq<Transaction>, from: int, to: int)
    ensures InRange(a + b, from, to) == InRange(a, from, to) + InRange(b, from, to)
  {
    if |b| == 0 {
      assert a + b == a;
    } else {
      assert (a + b)[..|a + b| - 1] == a + b[..|b| - 1];
      InRangeAppend(a, b[..|b| - 1], from, to);
    }
  }

  /** A single transaction is kept exactly when it is dated in the range. */
  lemma InRangeOne(t: Transaction, from: int, to: int)
    ensures InRange([t], from, to) == if from <= t.date <= to then [t] else []
  {
    assert [t][..0] == [];
  }

  /** A transaction dated outside the range never reaches the filtered set. */
  lemma InRangeIgnoresOutside(txs: seq<Transaction>, t: Transaction, from: int, to: int)
    requires !(from <= t.date <= to)
    ensures InRange(txs + [t], from, to) == InRange(txs, from, to)
  {
    assert (txs + [t])[..|txs|] == txs;
  }

  /** Widening the range never loses a transaction, so with non-negative
      amounts every selected sum can only grow. */
  lemma {:induction false} InRangeSumMonotone(txs: seq<Transaction>, sel: Selector,
                                              from: int, to: int, from': int, to': int)
    requires NonNegativeAmounts(txs)
    requires from' <= from && to <= to'
    ensures SumWhere(InRange(txs, from, to), sel) <= SumWhere(InRange(txs, from', to'), sel)
  {
    if |txs| > 0 {
      var prefix := txs[..|txs| - 1];
      var last := txs[|txs| - 1];
      assert NonNegativeAmounts(prefix) by {
        assert forall i :: 0 <= i < |prefix| ==> prefix[i] == txs[i];
      }
      InRangeSumMonotone(prefix, sel, from, to, from', to');
      var narrow := InRange(prefix, from, to);
      var wide := InRange(prefix, from', to');
      SumWhereExtend(narrow, last, sel);
      SumWhereExtend(wide, last, sel);
    }
  }
}
