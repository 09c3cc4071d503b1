/**
 * Invoice arithmetic: pricing the line items of the invoice form, dropping the
 * incomplete ones, the invoice totals, the running totals the form shows while
 * it is being edited, the `INV-0001` numbering and the displayed status.
 */
module Invoicing {
  import opened Wrappers
  import opened Text
  import opened Instants

  /** One row of the item editor, already parsed; an empty field reads as 0. */
  datatype ItemRow = ItemRow(description: string, quantity: real, rate: real, taxPercent: real)

  /** A stored line item. */
  datatype LineItem = LineItem(
    description: string, quantity: real, rate: real, tax: real,
    subtotal: real, taxAmount: real, total: real)

  /** Pricing one row: the tax is a percentage of quantity times rate. */
  function PriceItem(row: ItemRow): (it: LineItem)
    ensures it.description == row.description && it.quantity == row.quantity
    ensures it.rate == row.rate && it.tax == row.taxPercent
    ensures it.total == row.quantity * row.rate * (100.0 + row.taxPercent) / 100.0
    ensures it.total - it.subtotal == it.taxAmount
  {
    var subtotal := row.quantity * row.rate;
    var taxAmount := subtotal * (row.taxPercent / 100.0);
    LineItem(row.description, row.quantity, row.rate, row.taxPercent, subtotal, taxAmount, subtotal + taxAmount)
  }

  /** The filter applied before saving: a description and a positive rate. */
  predicate Kept(it: LineItem)
  {
    it.description != "" && it.rate > 0.0
  }

  /** The rows priced and filtered, in form order. */
  function PricedItems(rows: seq<ItemRow>): (items: seq<LineItem>)
    ensures |items| <= |rows|
    ensures forall i :: 0 <= i < |items| ==> Kept(items[i])
    ensures forall it :: it in items ==> exists r :: r in rows && it == PriceItem(r)
    ensures forall r :: r in rows && Kept(PriceItem(r)) ==> PriceItem(r) in items
  {
    if |rows| == 0 then []
    else
      var earlier := PricedItems(rows[..|rows| - 1]);
      var it := PriceItem(rows[|rows| - 1]);
      assert forall r :: r in rows <==> r in rows[..|rows| - 1] || r == rows[|rows| - 1];
      if Kept(it) then earlier + [it] else earlier
  }

  /** The filter distributes over concatenation: together with `PricedItemsOne`
      this fixes the saved items, order and identical rows included. */
  lemma {:induction false} PricedItemsAppend(a: seq<ItemRow>, b: seq<ItemRow>)
    ensures PricedItems(a + b) == PricedItems(a) + PricedItems(b)
  {
    if |b| == 0 {
      assert a + b == a;
    } else {
      assert (a + b)[..|a + b| - 1] == a + b[..|b| - 1];
      PricedItemsAppend(a, b[..|b| - 1]);
    }
  }

  /** A single row is saved, priced, exactly when it has a description and a positive rate. */
  lemma PricedItemsOne(row: ItemRow)
    ensures PricedItems([row]) == if Kept(PriceItem(row)) then [PriceItem(row)] else []
  {
    assert [row][..0] == [];
  }

  /** Every row of the editor priced, kept or not. */
  function PriceAll(rows: seq<ItemRow>): (items: seq<LineItem>)
    ensures |items| == |rows|
    ensures forall i :: 0 <= i < |rows| ==> items[i] == PriceItem(rows[i])
  {
    if |rows| == 0 then [] else PriceAll(rows[..|rows| - 1]) + [PriceItem(rows[|rows| - 1])]
  }

  /** The priced rows the save drops, in form order. */
  function DroppedItems(rows: seq<ItemRow>): (items: seq<LineItem>)
    ensures forall i :: 0 <= i < |items| ==> !Kept(items[i])
  {
    if |rows| == 0 then []
    else
      var earlier := DroppedItems(rows[..|rows| - 1]);
      var it := PriceItem(rows[|rows| - 1]);
      if Kept(it) then earlier else earlier + [it]
  }

  /** Column sums over line items, in order. */
  function SubtotalSum(items: seq<LineItem>): real
  {
    if |items| == 0 then 0.0 else SubtotalSum(items[..|items| - 1]) + items[|items| - 1].subtotal
  }

  function TaxSum(items: seq<LineItem>): real
  {
    if |items| == 0 then 0.0 else TaxSum(items[..|items| - 1]) + items[|items| - 1].taxAmount
  }

  function TotalSum(items: seq<LineItem>): real
  {
    if |items| == 0 then 0.0 else TotalSum(items[..|items| - 1]) + items[|items| - 1].total
  }

  /** Each column sum takes one more item by adding that item's figure. */
  lemma SumsExtend(items: seq<LineItem>, it: LineItem)
    ensures SubtotalSum(items + [it]) == SubtotalSum(items) + it.subtotal
    ensures TaxSum(items + [it]) == TaxSum(items) + it.taxAmount
    ensures TotalSum(items + [it]) == TotalSum(items) + it.total
  {
    assert (items + [it])[..|items|] == items;
  }

  /** Every item priced by `PriceItem` satisfies total = subtotal + taxAmount. */
  predicate Consistent(it: LineItem)
  {
    it.total == it.subtotal + it.taxAmount
  }

  /** For consistent items, subtotal plus tax is the sum of the item totals. */
  lemma {:induction false} SubtotalPlusTaxIsTotal(items: seq<LineItem>)
    requires forall i :: 0 <= i < |items| ==> Consistent(items[i])
    ensures SubtotalSum(items) + TaxSum(items) == TotalSum(items)
  {
    if |items| > 0 {
      SubtotalPlusTaxIsTotal(items[..|items| - 1]);
    }
  }

  datatype Status = Pending | Paid | Overdue

  datatype Invoice = Invoice(
    id: string, number: string, clientId: string, date: int, dueDate: int,
    items: seq<LineItem>, subtotal: real, tax: real, total: real, status: Status)

  datatype InvoiceError = NoItems

  /** The invoice form's submit handler: price and filter the rows, refuse an
      invoice without items, otherwise total the items and start as pending. */
  function CreateInvoice(
    rows: seq<ItemRow>, id: string, number: string, clientId: string, date: int, dueDate: int)
    : (r: Result<Invoice, InvoiceError>)
    ensures r.Failure? <==> forall row :: row in rows ==> !Kept(PriceItem(row))
    ensures r.Success? ==>
      && r.value.status == Pending
      && r.value.items == PricedItems(rows)
      && |r.value.items| > 0
      && r.value.subtotal == SubtotalSum(r.value.items)
      && r.value.tax == TaxSum(r.value.items)
      && r.value.total == r.value.subtotal + r.value.tax
      && r.value.total == TotalSum(r.value.items)
      && r.value.id == id && r.value.number == number && r.value.clientId == clientId
      && r.value.date == date && r.value.dueDate == dueDate
  {
    var items := PricedItems(rows);
    if |items| == 0 then
      assert forall row :: row in rows ==> !Kept(PriceItem(row));
      Failure(NoItems)
    else
      assert items[0] in items;
      assert forall i :: 0 <= i < |items| ==> Consistent(items[i]) by {
        forall i | 0 <= i < |items| ensures Consistent(items[i]) {
          assert items[i] in items;
        }
      }
      SubtotalPlusTaxIsTotal(items);
      var subtotal := SubtotalSum(items);
      var totalTax := TaxSum(items);
      Success(Invoice(id, number, clientId, date, dueDate, items, subtotal, totalTax, subtotal + totalTax, Pending))
  }

  /** The figures `updateInvoiceTotal` shows while editing. */
  datatype Totals = Totals(subtotal: real, tax: real, total: real)

  /** Running totals over every row of the editor, kept or not. */
  function LiveTotals(rows: seq<ItemRow>): (t: Totals)
    ensures t.subtotal == SubtotalSum(PriceAll(rows))
    ensures t.tax == TaxSum(PriceAll(rows))
    ensures t.total == t.subtotal + t.tax
  {
    if |rows| == 0 then Totals(0.0, 0.0, 0.0)
    else
      var earlier := LiveTotals(rows[..|rows| - 1]);
      var it := PriceItem(rows[|rows| - 1]);
      SumsExtend(PriceAll(rows[..|rows| - 1]), it);
      Totals(earlier.subtotal + it.subtotal, earlier.tax + it.taxAmount,
             earlier.subtotal + it.subtotal + (earlier.tax + it.taxAmount))
  }

  /** When every row is complete, the totals shown while editing are the saved ones. */
  lemma {:induction false} LiveTotalsMatchSaved(rows: seq<ItemRow>)
    requires forall i :: 0 <= i < |rows| ==> Kept(PriceItem(rows[i]))
    ensures LiveTotals(rows).subtotal == SubtotalSum(PricedItems(rows))
    ensures LiveTotals(rows).tax == TaxSum(PricedItems(rows))
  {
    if |rows| > 0 {
      var prefix := rows[..|rows| - 1];
      LiveTotalsMatchSaved(prefix);
      assert PricedItems(rows) == PricedItems(prefix) + [PriceItem(rows[|rows| - 1])];
      assert (PricedItems(prefix) + [PriceItem(rows[|rows| - 1])])[..|PricedItems(prefix)|] == PricedItems(prefix);
    }
  }

  /** For every editor state, the totals shown while editing exceed the saved
      ones by exactly the figures of the rows the save drops. */
  lemma {:induction false} LiveTotalsSplit(rows: seq<ItemRow>)
    ensures LiveTotals(rows).subtotal == SubtotalSum(PricedItems(rows)) + SubtotalSum(DroppedItems(rows))
    ensures LiveTotals(rows).tax == TaxSum(PricedItems(rows)) + TaxSum(DroppedItems(rows))
  {
    if |rows| > 0 {
      var prefix := rows[..|rows| - 1];
      var it := PriceItem(rows[|rows| - 1]);
      LiveTotalsSplit(prefix);
      SumsExtend(PriceAll(prefix), it);
      if Kept(it) {
        SumsExtend(PricedItems(prefix), it);
      } else {
        SumsExtend(DroppedItems(prefix), it);
      }
    }
  }

  /** A row with a rate but no description counts in the total shown while
      editing, and then the save is refused: the two disagree. */
  lemma LiveTotalsCountDroppedRows()
    ensures LiveTotals([ItemRow("", 1.0, 100.0, 18.0)]).total == 118.0
    ensures CreateInvoice([ItemRow("", 1.0, 100.0, 18.0)], "i", "INV-0001", "c", 0, 30).Failure?
  {
    var rows := [ItemRow("", 1.0, 100.0, 18.0)];
    assert rows[..0] == [];
    assert forall row :: row in rows ==> row == rows[0];
  }

  // ---------------------------------------------------------------------------
  // Numbering

  const InvoicePrefix: string := "INV-"

  /** The number proposed for a new invoice when `count` invoices exist:
      `INV-` followed by count + 1, zero-padded to at least four digits. */
  function InvoiceNumber(count: nat): (s: string)
    ensures |s| >= 8 && s[..4] == InvoicePrefix
    ensures AllDigits(s[4..])
  {
    var digits := PadStart(Decimal(count + 1), 4, '0');
    assert digits == Repeat('0', |digits| - |Decimal(count + 1)|) + Decimal(count + 1);
    LeadingZerosIgnored(|digits| - |Decimal(count + 1)|, Decimal(count + 1));
    InvoicePrefix + digits
  }

  /** Reading the sequence number back from an invoice number. */
  function ParseInvoiceNumber(s: string): Option<nat>
  {
    if |s| > 4 && s[..4] == InvoicePrefix && AllDigits(s[4..]) then Some(DecimalValue(s[4..]))
    else None
  }

  /** The proposed number carries count + 1, so different counts give different numbers. */
  lemma InvoiceNumberRoundTrip(count: nat)
    ensures ParseInvoiceNumber(InvoiceNumber(count)) == Some(count + 1)
  {
    var d := Decimal(count + 1);
    var digits := PadStart(d, 4, '0');
    assert digits == Repeat('0', |digits| - |d|) + d;
    LeadingZerosIgnored(|digits| - |d|, d);
    DecimalRoundTrip(count + 1);
    assert InvoiceNumber(count)[4..] == digits;
  }

  lemma InvoiceNumbersDistinct(a: nat, b: nat)
    requires a != b
    ensures InvoiceNumber(a) != InvoiceNumber(b)
  {
    InvoiceNumberRoundTrip(a);
    InvoiceNumberRoundTrip(b);
  }

  lemma FirstInvoiceNumber()
    ensures InvoiceNumber(0) == "INV-0001"
  {
    assert Decimal(1) == "1";
    assert Repeat('0', 3) == "000";
  }

  // ---------------------------------------------------------------------------
  // Status

  /** The overdue test the insight engine uses: due before now and not paid. */
  predicate IsOverdue(inv: Invoice, now: int)
  {
    Midnight(inv.dueDate) < now && inv.status != Paid
  }

  /** `getInvoiceStatus` at instant `now` (milliseconds): paid beats overdue, overdue beats pending. */
  function DisplayStatus(inv: Invoice, now: int): (s: Status)
    ensures s == Paid <==> inv.status == Paid
    ensures s == Overdue <==> IsOverdue(inv, now)
    ensures s == Pending <==> inv.status != Paid && now <= Midnight(inv.dueDate)
  {
    if inv.status == Paid then Paid
    else if Midnight(inv.dueDate) < now then Overdue
    else Pending
  }

  /** An unpaid invoice is already shown as overdue during its own due day,
      from the first millisecond after midnight. */
  lemma OverdueOnDueDay(inv: Invoice, now: int)
    requires inv.status != Paid
    requires Midnight(inv.dueDate) < now < Midnight(inv.dueDate + 1)
    ensures DisplayStatus(inv, now) == Overdue
  {
  }

  /** Once overdue, an invoice stays overdue as time passes until it is paid. */
  lemma OverdueIsPermanent(inv: Invoice, now: int, later: int)
    requires now <= later
    requires DisplayStatus(inv, now) == Overdue
    ensures DisplayStatus(inv, later) == Overdue
  {
  }
}
