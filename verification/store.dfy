/**
 * The backend's record store: three collections of schemaless JSON records
 * (clients, transactions, invoices), the create, update and delete handlers
 * over them, and the totals of the insights endpoint.
 *
 * Loading and saving the data file is not performed here; each handler
 * returns the store it would save together with whether it saves at all.
 * The clock and the id generator are parameters.
 */
module Store {
  import opened Wrappers
  import opened Text
  import Ledger

  // ---------------------------------------------------------------------------
  // Records

  /** A JSON value as the body parser delivers it. */
  datatype Value =
    | Null
    | Bool(b: bool)
    | Num(n: real)
    | Str(s: string)
    | Arr(items: seq<Value>)
    | Obj(fields: map<string, Value>)

  /** A record is a JSON object; key order is not observable through the handlers. */
  type Record = map<string, Value>

  /** Truthiness of a field; an absent field reads as `undefined`, which is falsy. */
  predicate Truthy(r: Record, key: string)
  {
    key in r &&
    match r[key]
    case Null => false
    case Bool(b) => b
    case Num(n) => n != 0.0
    case Str(s) => s != ""
    case _ => true
  }

  /** `Object.assign({}, existing, body)`: every key of either; the body's value wins. */
  function Merge(existing: Record, body: Record): (r: Record)
    ensures r.Keys == existing.Keys + body.Keys
    ensures forall key :: key in body ==> r[key] == body[key]
    ensures forall key :: key in existing && key !in body ==> r[key] == existing[key]
  {
    existing + body
  }

  /** Merging the same body again changes nothing. */
  lemma MergeIdempotent(existing: Record, body: Record)
    ensures Merge(Merge(existing, body), body) == Merge(existing, body)
  {
  }

  /** `record.id === id`: the id must be that very string. */
  predicate HasId(r: Record, id: string)
  {
    "id" in r && r["id"] == Str(id)
  }

  // ---------------------------------------------------------------------------
  // The store

  datatype Kind = Clients | Transactions | Invoices

  datatype Store = Store(clients: seq<Record>, transactions: seq<Record>, invoices: seq<Record>)

  function Collection(s: Store, kind: Kind): seq<Record>
  {
    match kind
    case Clients => s.clients
    case Transactions => s.transactions
    case Invoices => s.invoices
  }

  /** The store with one collection replaced and the other two kept. */
  function WithCollection(s: Store, kind: Kind, c: seq<Record>): (t: Store)
    ensures Collection(t, kind) == c
    ensures forall other :: other != kind ==> Collection(t, other) == Collection(s, other)
  {
    match kind
    case Clients => s.(clients := c)
    case Transactions => s.(transactions := c)
    case Invoices => s.(invoices := c)
  }

  /** What a handler answers. */
  datatype Reply = Created(record: Record) | Updated(record: Record) | Deleted | NotFound(message: string)

  function Status(reply: Reply): nat
  {
    match reply
    case Created(_) => 201
    case Updated(_) => 200
    case Deleted => 200
    case NotFound(_) => 404
  }

  /** The store a handler leaves behind, its reply, and whether it writes the data file. */
  datatype Outcome = Outcome(store: Store, reply: Reply, saved: bool)

  function NotFoundMessage(kind: Kind): string
  {
    match kind
    case Clients => "Client not found"
    case Transactions => "Transaction not found"
    case Invoices => "Invoice not found"
  }

  // ---------------------------------------------------------------------------
  // Create

  /** The record a create handler stores: the body with the new id, a transaction's
      date filled in with the current time only when the body's is falsy, and an
      invoice stamped with its creation time. */
  function Stamp(kind: Kind, body: Record, newId: string, nowIso: string): (r: Record)
    ensures HasId(r, newId)
    ensures kind == Transactions ==> "date" in r && r["date"] == (if Truthy(body, "date") then body["date"] else Str(nowIso))
    ensures kind == Invoices ==> "createdAt" in r && r["createdAt"] == Str(nowIso)
    ensures r.Keys == body.Keys + {"id"} + (match kind
                                             case Clients => {}
                                             case Transactions => {"date"}
                                             case Invoices => {"createdAt"})
    ensures forall key :: key in body && key !in {"id", "date", "createdAt"} ==> r[key] == body[key]
    ensures kind != Transactions && "date" in body ==> r["date"] == body["date"]
    ensures kind != Invoices && "createdAt" in body ==> r["createdAt"] == body["createdAt"]
  {
    var withId := body["id" := Str(newId)];
    match kind
    case Clients => withId
    case Transactions => withId["date" := if Truthy(body, "date") then body["date"] else Str(nowIso)]
    case Invoices => withId["createdAt" := Str(nowIso)]
  }

  /** `POST /api/<kind>`: append the stamped record, save, and answer 201 with it. */
  function Create(s: Store, kind: Kind, body: Record, newId: string, nowIso: string): (o: Outcome)
    ensures o.saved && o.reply == Created(Stamp(kind, body, newId, nowIso)) && Status(o.reply) == 201
    ensures Collection(o.store, kind) == Collection(s, kind) + [Stamp(kind, body, newId, nowIso)]
    ensures forall other :: other != kind ==> Collection(o.store, other) == Collection(s, other)
  {
    var record := Stamp(kind, body, newId, nowIso);
    Outcome(WithCollection(s, kind, Collection(s, kind) + [record]), Created(record), true)
  }

  // ---------------------------------------------------------------------------
  // Update

  /** `findIndex` by id: the first position holding a record with that id. */
  function FirstWithId(c: seq<Record>, id: string): (k: Option<nat>)
    ensures k.Some? ==> k.value < |c| && HasId(c[k.value], id)
    ensures k.Some? ==> forall i :: 0 <= i < k.value ==> !HasId(c[i], id)
    ensures k.None? <==> forall i :: 0 <= i < |c| ==> !HasId(c[i], id)
  {
    if |c| == 0 then None
    else if HasId(c[0], id) then Some(0)
    else
      var rest := FirstWithId(c[1..], id);
      if rest.None? then None else Some(rest.value + 1)
  }

  /** `PUT /api/<kind>/:id`: 404 and no save when no record has the id; otherwise
      the first record with the id is merged with the body, nothing else moves,
      and the merged record is answered. */
  function Update(s: Store, kind: Kind, id: string, body: Record): (o: Outcome)
    ensures o.reply.NotFound? <==> NoneHasId(Collection(s, kind), id)
    ensures o.reply.NotFound? ==> o.store == s && !o.saved && o.reply.message == NotFoundMessage(kind)
                                  && Status(o.reply) == 404
    ensures !o.reply.NotFound? ==> o.saved && o.reply.Updated? && Status(o.reply) == 200
    ensures o.reply.Updated? ==>
      var c := Collection(s, kind);
      exists k :: 0 <= k < |c| && HasId(c[k], id) && (forall i :: 0 <= i < k ==> !HasId(c[i], id))
        && o.reply.record == Merge(c[k], body)
        && Collection(o.store, kind) == c[k := Merge(c[k], body)]
    ensures forall other :: other != kind ==> Collection(o.store, other) == Collection(s, other)
  {
    var c := Collection(s, kind);
    var k := FirstWithId(c, id);
    if k.None? then Outcome(s, NotFound(NotFoundMessage(kind)), false)
    else
      var updated := Merge(c[k.value], body);
      Outcome(WithCollection(s, kind, c[k.value := updated]), Updated(updated), true)
  }

  /** Repeating an update that keeps the record's id changes nothing more. */
  lemma UpdateIdempotent(s: Store, kind: Kind, id: string, body: Record)
    requires "id" !in body || body["id"] == Str(id)
    ensures Update(Update(s, kind, id, body).store, kind, id, body).store == Update(s, kind, id, body).store
  {
    var c := Collection(s, kind);
    var k := FirstWithId(c, id);
    if k.Some? {
      var once := Update(s, kind, id, body).store;
      var c1 := Collection(once, kind);
      assert c1 == c[k.value := Merge(c[k.value], body)];
      assert HasId(c1[k.value], id);
      assert forall i :: 0 <= i < k.value ==> c1[i] == c[i];
      assert FirstWithId(c1, id) == k;
      MergeIdempotent(c[k.value], body);
      assert c1[k.value := Merge(c1[k.value], body)] == c1;
    }
  }

  // ---------------------------------------------------------------------------
  // Delete

  /** `filter(r => r.id !== id)`. */
  function WithoutId(c: seq<Record>, id: string): (r: seq<Record>)
    ensures forall i :: 0 <= i < |r| ==> !HasId(r[i], id)
    ensures forall x :: x in r <==> x in c && !HasId(x, id)
    ensures |r| <= |c|
  {
    if |c| == 0 then []
    else
      var rest := WithoutId(c[..|c| - 1], id);
      var last := c[|c| - 1];
      assert forall x :: x in c <==> x in c[..|c| - 1] || x == last by {
        assert c == c[..|c| - 1] + [last];
      }
      if HasId(last, id) then rest else rest + [last]
  }

  /** The filter keeps the survivors in their original order. */
  lemma {:induction false} WithoutIdAppend(a: seq<Record>, b: seq<Record>, id: string)
    ensures WithoutId(a + b, id) == WithoutId(a, id) + WithoutId(b, id)
  {
    if |b| == 0 {
      assert a + b == a;
    } else {
      assert (a + b)[..|a + b| - 1] == a + b[..|b| - 1];
      WithoutIdAppend(a, b[..|b| - 1], id);
    }
  }

  /** No record in `c` carries the id. */
  predicate NoneHasId(c: seq<Record>, id: string)
  {
    forall i :: 0 <= i < |c| ==> !HasId(c[i], id)
  }

  /** When no record has the id, the filter keeps everything. */
  lemma {:induction false} WithoutIdKeepsAll(c: seq<Record>, id: string)
    requires NoneHasId(c, id)
    ensures WithoutId(c, id) == c
  {
    if |c| > 0 {
      var prefix := c[..|c| - 1];
      assert NoneHasId(prefix, id) by {
        forall i | 0 <= i < |prefix| ensures !HasId(prefix[i], id) {
          assert prefix[i] == c[i];
        }
      }
      WithoutIdKeepsAll(prefix, id);
      assert c == prefix + [c[|c| - 1]];
    }
  }

  /** A record with the id at any position makes the filter drop something. */
  lemma {:induction false} WithoutIdDropsMatch(c: seq<Record>, id: string, k: nat)
    requires k < |c| && HasId(c[k], id)
    ensures |WithoutId(c, id)| < |c|
  {
    var prefix := c[..|c| - 1];
    if k < |c| - 1 {
      assert prefix[k] == c[k];
      WithoutIdDropsMatch(prefix, id, k);
    }
  }

  /** The filter drops something exactly when some record has the id. */
  lemma WithoutIdShrinks(c: seq<Record>, id: string)
    ensures |WithoutId(c, id)| == |c| <==> NoneHasId(c, id)
    ensures NoneHasId(c, id) ==> WithoutId(c, id) == c
  {
    if NoneHasId(c, id) {
      WithoutIdKeepsAll(c, id);
    } else {
      var k :| 0 <= k < |c| && HasId(c[k], id);
      WithoutIdDropsMatch(c, id, k);
    }
  }

  /** `DELETE /api/<kind>/:id`: remove every record with the id; when the length
      did not change, answer 404 and save nothing. */
  function Delete(s: Store, kind: Kind, id: string): (o: Outcome)
    ensures o.reply.NotFound? <==> NoneHasId(Collection(s, kind), id)
    ensures o.reply.NotFound? ==> o.store == s && !o.saved && o.reply.message == NotFoundMessage(kind)
                                  && Status(o.reply) == 404
    ensures !o.reply.NotFound? ==> o.saved && o.reply == Deleted && Status(o.reply) == 200
                                   && Collection(o.store, kind) == WithoutId(Collection(s, kind), id)
    ensures forall other :: other != kind ==> Collection(o.store, other) == Collection(s, other)
  {
    var c := Collection(s, kind);
    var kept := WithoutId(c, id);
    WithoutIdShrinks(c, id);
    if |kept| == |c| then Outcome(s, NotFound(NotFoundMessage(kind)), false)
    else
      var t := WithCollection(s, kind, kept);
      Outcome(t, Deleted, true)
  }

  /** Deleting a freshly created record by its new id, when no earlier record
      carried that id, gives back the store as it was. */
  lemma DeleteUndoesCreate(s: Store, kind: Kind, body: Record, newId: string, nowIso: string)
    requires forall i :: 0 <= i < |Collection(s, kind)| ==> !HasId(Collection(s, kind)[i], newId)
    ensures Delete(Create(s, kind, body, newId, nowIso).store, kind, newId).store == s
  {
    var c := Collection(s, kind);
    var record := Stamp(kind, body, newId, nowIso);
    var created := Create(s, kind, body, newId, nowIso).store;
    WithoutIdAppend(c, [record], newId);
    WithoutIdShrinks(c, newId);
    assert [record][..0] == [];
    assert WithoutId([record], newId) == [];
    assert Collection(created, kind)[|c|] == record;
    var o := Delete(created, kind, newId);
    assert Collection(o.store, kind) == c;
  }

  // ---------------------------------------------------------------------------
  // Insight totals

  /** `Number(v) || 0` for a field: numbers as they are, booleans as 1 and 0, a
      string of decimal digits (blanks around allowed) as its value, and
      everything else, including an absent field, as 0. */
  function NumberOr0(r: Record, key: string): (n: real)
    ensures key !in r ==> n == 0.0
    ensures key in r && r[key].Num? ==> n == r[key].n
    ensures key in r && r[key].Str? && AllWhitespace(r[key].s) ==> n == 0.0
  {
    if key !in r then 0.0
    else
      match r[key]
      case Num(n) => n
      case Bool(b) => if b then 1.0 else 0.0
      case Str(s) =>
        var t := Trim(s);
        if AllDigits(t) then DecimalValue(t) as real else 0.0
      case _ => 0.0
  }

  /** A string field, or the empty string when absent or not a string. */
  function StringField(r: Record, key: string): string
  {
    if key in r && r[key].Str? then r[key].s else ""
  }

  /** A stored transaction record read the way the totals read it. */
  function LedgerView(r: Record): (t: Ledger.Transaction)
    ensures t.txType == Ledger.Income <==> "type" in r && r["type"] == Str("income")
    ensures t.txType == Ledger.Expense <==> "type" in r && r["type"] == Str("expense")
    ensures t.amount == NumberOr0(r, "amount")
  {
    Ledger.Transaction(StringField(r, "id"), 0, StringField(r, "clientId"),
                       Ledger.ParseTxType(StringField(r, "type")), StringField(r, "category"),
                       NumberOr0(r, "amount"))
  }

  function LedgerViews(txs: seq<Record>): (r: seq<Ledger.Transaction>)
    ensures |r| == |txs|
    ensures forall i :: 0 <= i < |txs| ==> r[i] == LedgerView(txs[i])
  {
    if |txs| == 0 then [] else LedgerViews(txs[..|txs| - 1]) + [LedgerView(txs[|txs| - 1])]
  }

  /** The record's `type` field is the string `ty`. */
  predicate IsOfType(r: Record, ty: string)
  {
    "type" in r && r["type"] == Str(ty)
  }

  /** The running sum of `Number(t.amount) || 0` over the records of one type. */
  function TotalOfType(txs: seq<Record>, ty: string): (total: real)
    ensures (forall i :: 0 <= i < |txs| ==> !IsOfType(txs[i], ty)) ==> total == 0.0
  {
    if |txs| == 0 then 0.0
    else
      var last := txs[|txs| - 1];
      assert forall i :: 0 <= i < |txs| - 1 ==> txs[..|txs| - 1][i] == txs[i];
      TotalOfType(txs[..|txs| - 1], ty)
      + (if IsOfType(last, ty) then NumberOr0(last, "amount") else 0.0)
  }

  /** The endpoint's totals are the ledger's income and expense sums over the same records. */
  lemma {:induction false} TotalsAreLedgerSums(txs: seq<Record>)
    ensures TotalOfType(txs, "income") == Ledger.SumWhere(LedgerViews(txs), Ledger.OfType(Ledger.Income))
    ensures TotalOfType(txs, "expense") == Ledger.SumWhere(LedgerViews(txs), Ledger.OfType(Ledger.Expense))
  {
    if |txs| > 0 {
      var prefix := txs[..|txs| - 1];
      TotalsAreLedgerSums(prefix);
      var views := LedgerViews(txs);
      assert views[..|views| - 1] == LedgerViews(prefix);
    }
  }

  datatype Summary = Summary(totalRevenue: real, totalExpenses: real, netProfit: real,
                             activeClients: nat, invoiceCount: nat)

  /** `GET /api/ai-insights`. */
  function InsightTotals(s: Store): (r: Summary)
    ensures r.totalRevenue == Ledger.SumWhere(LedgerViews(s.transactions), Ledger.OfType(Ledger.Income))
    ensures r.totalExpenses == Ledger.SumWhere(LedgerViews(s.transactions), Ledger.OfType(Ledger.Expense))
    ensures r.netProfit == r.totalRevenue - r.totalExpenses
    ensures r.activeClients == |s.clients| && r.invoiceCount == |s.invoices|
  {
    TotalsAreLedgerSums(s.transactions);
    var revenue := TotalOfType(s.transactions, "income");
    var expenses := TotalOfType(s.transactions, "expense");
    Summary(revenue, expenses, revenue - expenses, |s.clients|, |s.invoices|)
  }

  /** The stamp touches neither the type nor the amount of a record. */
  lemma StampKeepsTypeAndAmount(kind: Kind, body: Record, newId: string, nowIso: string, ty: string)
    ensures var r := Stamp(kind, body, newId, nowIso);
            NumberOr0(r, "amount") == NumberOr0(body, "amount")
            && (("type" in r && r["type"] == Str(ty)) <==> ("type" in body && body["type"] == Str(ty)))
  {
    var r := Stamp(kind, body, newId, nowIso);
    assert "amount" in r <==> "amount" in body;
    assert "type" in r <==> "type" in body;
  }

  /** The revenue or expense total of the records after one more is appended. */
  lemma TotalAfterAppend(txs: seq<Record>, r: Record, ty: string)
    ensures TotalOfType(txs + [r], ty)
         == TotalOfType(txs, ty) + (if "type" in r && r["type"] == Str(ty) then NumberOr0(r, "amount") else 0.0)
  {
    assert (txs + [r])[..|txs|] == txs;
  }

  /** Creating a transaction moves the totals by its own amount in its own
      column; creating a client or invoice only moves the counts. */
  lemma CreateMovesTotals(s: Store, kind: Kind, body: Record, newId: string, nowIso: string)
    ensures var before := InsightTotals(s);
            var after := InsightTotals(Create(s, kind, body, newId, nowIso).store);
            after.totalRevenue == before.totalRevenue
              + (if kind == Transactions && "type" in body && body["type"] == Str("income")
                 then NumberOr0(body, "amount") else 0.0)
            && after.totalExpenses == before.totalExpenses
              + (if kind == Transactions && "type" in body && body["type"] == Str("expense")
                 then NumberOr0(body, "amount") else 0.0)
            && after.activeClients == before.activeClients + (if kind == Clients then 1 else 0)
            && after.invoiceCount == before.invoiceCount + (if kind == Invoices then 1 else 0)
  {
    var created := Create(s, kind, body, newId, nowIso).store;
    TotalsAreLedgerSums(s.transactions);
    TotalsAreLedgerSums(created.transactions);
    if kind == Transactions {
      var record := Stamp(kind, body, newId, nowIso);
      StampKeepsTypeAndAmount(kind, body, newId, nowIso, "income");
      StampKeepsTypeAndAmount(kind, body, newId, nowIso, "expense");
      TotalAfterAppend(s.transactions, record, "income");
      TotalAfterAppend(s.transactions, record, "expense");
    } else {
      assert created.transactions == s.transactions;
    }
  }
}
