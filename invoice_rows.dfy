/** The line-item rows of an invoice being entered or edited. The new-invoice
    form and the edit dialog of the invoice list keep the same row shape and
    apply the same add / remove / patch operations, the same per-row
    validation, the same reconciliation of the rows against the declared
    total, and the same coercion of blank amounts when the payload is built. */
module InvoiceRows {
  import opened Common
  import opened Text
  import opened Store

  datatype Row = Row(
    id: RowId,
    productName: string,
    productId: Option<Id>,
    qty: Amount,
    unitPrice: Amount,
    projectId: Option<Id>)

  /** `{ ...row, ...patch }`: the fields present in a patch replace the row's. */
  datatype Patch = Patch(
    productName: Option<string>,
    productId: Option<Option<Id>>,
    qty: Option<Amount>,
    unitPrice: Option<Amount>,
    projectId: Option<Option<Id>>)

  /** Why a save was stopped before any write. */
  datatype Reason =
    | MissingNumber | MissingSupplier | MissingTotal | MissingDate
    | MissingProduct | MissingProject | NoDraft

  /** How far the checks and prompts of a save got: `stop` holds the outcome
      when the save ended before the write, and `prompts` the confirmations
      asked so far. */
  datatype Gate = Gate(stop: Option<Outcome<Reason>>, prompts: seq<Prompt>)

  /** How a save ended, the prompts it raised in order, and the database
      after it. */
  datatype SaveResult = SaveResult(outcome: Outcome<Reason>, prompts: seq<Prompt>, db: Db)

  /** The row `addRow` appends and the form starts with. */
  function BlankRow(id: RowId): Row {
    Row(id, "", None, Blank, Blank, None)
  }

  predicate HasRow(rows: seq<Row>, id: RowId) {
    exists r :: r in rows && r.id == id
  }

  function Apply(r: Row, p: Patch): (r': Row)
    ensures r'.id == r.id
    ensures r'.productName == p.productName.GetOr(r.productName)
    ensures r'.productId == p.productId.GetOr(r.productId)
    ensures r'.qty == p.qty.GetOr(r.qty) && r'.unitPrice == p.unitPrice.GetOr(r.unitPrice)
    ensures r'.projectId == p.projectId.GetOr(r.projectId)
  {
    Row(r.id, p.productName.GetOr(r.productName), p.productId.GetOr(r.productId),
        p.qty.GetOr(r.qty), p.unitPrice.GetOr(r.unitPrice), p.projectId.GetOr(r.projectId))
  }

  /** `addRow`: one blank row at the end, the earlier rows untouched. */
  function AddRow(rows: seq<Row>, id: RowId): (r: seq<Row>)
    ensures |r| == |rows| + 1 && r[..|rows|] == rows && r[|rows|] == BlankRow(id)
  {
    rows + [BlankRow(id)]
  }

  /** `removeRow`: the rows with another id, in their order. */
  function RemoveRow(rows: seq<Row>, id: RowId): (r: seq<Row>)
    ensures forall x :: x in r <==> x in rows && x.id != id
    ensures forall x :: multiset(r)[x] == if x.id != id then multiset(rows)[x] else 0
    ensures IsSubsequence(r, rows)
  {
    FilterIsSubsequence(rows, (x: Row) => x.id != id);
    FilterMultiset(rows, (x: Row) => x.id != id);
    Filter(rows, (x: Row) => x.id != id)
  }

  /** `updateItem`: the rows with the id get the patch, nothing else changes. */
  function UpdateItem(rows: seq<Row>, id: RowId, p: Patch): (r: seq<Row>)
    ensures |r| == |rows|
    ensures forall i :: 0 <= i < |rows| && rows[i].id == id ==> r[i] == Apply(rows[i], p)
    ensures forall i :: 0 <= i < |rows| && rows[i].id != id ==> r[i] == rows[i]
  {
    UpdateWhere(rows, (x: Row) => x.id == id, (x: Row) => Apply(x, p))
  }

  /** Removing a row that was just added gives back the rows before it. */
  lemma RemoveAddedRow(rows: seq<Row>, id: RowId)
    requires !HasRow(rows, id)
    ensures RemoveRow(AddRow(rows, id), id) == rows
  {
    var keep := (x: Row) => x.id != id;
    FilterAppend(rows, [BlankRow(id)], keep);
    FilterKeepsAll(rows, keep);
  }

  /** Patching an id no row carries changes nothing. */
  lemma UpdateAbsentRow(rows: seq<Row>, id: RowId, p: Patch)
    requires !HasRow(rows, id)
    ensures UpdateItem(rows, id, p) == rows
  {
    var r := UpdateItem(rows, id, p);
    forall i | 0 <= i < |rows| ensures r[i] == rows[i] {
      assert rows[i] in rows;
    }
  }

  /** Removing a row makes any earlier patch of it invisible. */
  lemma {:induction false} RemoveAfterUpdate(rows: seq<Row>, id: RowId, p: Patch)
    ensures RemoveRow(UpdateItem(rows, id, p), id) == RemoveRow(rows, id)
  {
    if rows != [] {
      var u := UpdateItem(rows, id, p);
      RemoveAfterUpdate(rows[1..], id, p);
      assert u[1..] == UpdateItem(rows[1..], id, p);
      assert u[0].id == rows[0].id;
    }
  }

  /** Row keys are pairwise distinct and all below the next key to hand out
      (the views draw keys from `Math.random()` and rely on them not
      colliding; the model hands out keys from a counter). */
  predicate KeysFresh(rows: seq<Row>, next: RowId) {
    && (forall i, j :: 0 <= i < j < |rows| ==> rows[i].id != rows[j].id)
    && (forall i :: 0 <= i < |rows| ==> rows[i].id < next)
  }

  lemma AddRowKeepsKeysFresh(rows: seq<Row>, next: RowId)
    requires KeysFresh(rows, next)
    ensures !HasRow(rows, next)
    ensures KeysFresh(AddRow(rows, next), next + 1)
  {
    forall r | r in rows ensures r.id != next {
      var i :| 0 <= i < |rows| && rows[i] == r;
    }
  }

  lemma KeysFreshTail(rows: seq<Row>, next: RowId)
    requires rows != [] && KeysFresh(rows, next)
    ensures KeysFresh(rows[1..], next)
    ensures forall x :: x in rows[1..] ==> x.id != rows[0].id
  {
    var t := rows[1..];
    assert forall i :: 0 <= i < |t| ==> t[i] == rows[i + 1];
  }

  lemma KeysFreshCons(x: Row, rest: seq<Row>, next: RowId)
    requires x.id < next && KeysFresh(rest, next)
    requires forall y :: y in rest ==> y.id != x.id
    ensures KeysFresh([x] + rest, next)
  {
    var r := [x] + rest;
    forall i, j | 0 <= i < j < |r| ensures r[i].id != r[j].id {
      assert r[j] == rest[j - 1];
      if i > 0 {
        assert r[i] == rest[i - 1];
      }
    }
  }

  lemma {:induction false} RemoveRowKeepsKeysFresh(rows: seq<Row>, id: RowId, next: RowId)
    requires KeysFresh(rows, next)
    ensures KeysFresh(RemoveRow(rows, id), next)
  {
    if rows != [] {
      var t := rows[1..];
      KeysFreshTail(rows, next);
      RemoveRowKeepsKeysFresh(t, id, next);
      if rows[0].id != id {
        assert RemoveRow(rows, id) == [rows[0]] + RemoveRow(t, id);
        KeysFreshCons(rows[0], RemoveRow(t, id), next);
      } else {
        assert RemoveRow(rows, id) == RemoveRow(t, id);
      }
    }
  }

  lemma UpdateItemKeepsKeysFresh(rows: seq<Row>, id: RowId, p: Patch, next: RowId)
    requires KeysFresh(rows, next)
    ensures KeysFresh(UpdateItem(rows, id, p), next)
  {
    var u := UpdateItem(rows, id, p);
    assert forall i :: 0 <= i < |rows| ==> u[i].id == rows[i].id;
  }

  /** With distinct keys, removing a present key drops exactly one row. */
  lemma {:induction false} RemoveRowDropsOne(rows: seq<Row>, id: RowId, next: RowId)
    requires KeysFresh(rows, next) && HasRow(rows, id)
    ensures |RemoveRow(rows, id)| == |rows| - 1
  {
    var t := rows[1..];
    KeysFreshTail(rows, next);
    if rows[0].id == id {
      assert RemoveRow(rows, id) == RemoveRow(t, id);
      FilterKeepsAll(t, (x: Row) => x.id != id);
    } else {
      var r :| r in rows && r.id == id;
      assert r in t by {
        var i :| 0 <= i < |rows| && rows[i] == r;
        assert t[i - 1] == r;
      }
      assert RemoveRow(rows, id) == [rows[0]] + RemoveRow(t, id);
      RemoveRowDropsOne(t, id, next);
    }
  }

  // -----------------------------------------------------------------------
  // Reconciliation

  /** `{ ...it, qty: parseFloat(it.qty || 0), unit_price: ... }`. */
  function Prepare(r: Row): StoredItem {
    StoredItem(r.id, r.productName, r.productId, AsNumber(r.qty), AsNumber(r.unitPrice), r.projectId)
  }

  /** The line total of a stored item. */
  function StoredLineTotal(it: StoredItem): real {
    it.qty * it.unitPrice
  }

  /** `parseFloat(qty || 0) * parseFloat(unit_price || 0)`: the line total
      of the row once its blank amounts are read as 0. */
  function LineTotal(r: Row): real {
    StoredLineTotal(Prepare(r))
  }

  /** The running `reduce` over the rows, left to right. */
  function RowsSum(rows: seq<Row>): real {
    SumOf(rows, LineTotal)
  }

  /** The declared total is off by more than a cent: the save asks before
      going on. */
  predicate Mismatch(rows: seq<Row>, declared: real) {
    Abs(RowsSum(rows) - declared) > 0.01
  }

  /** A blank row adds nothing to the rows' sum. */
  lemma AddRowKeepsSum(rows: seq<Row>, id: RowId)
    ensures RowsSum(AddRow(rows, id)) == RowsSum(rows)
  {
    assert AddRow(rows, id)[..|rows|] == rows;
  }

  /** The two worked examples of the reconciliation rule: rows 2 x 5.00 and
      3 x 1.50 match a declared 14.50 and do not match a declared 20.00. */
  lemma ReconciliationExamples(a: RowId, b: RowId)
    ensures !Mismatch([Row(a, "x", None, Num(2.0), Num(5.0), None), Row(b, "y", None, Num(3.0), Num(1.5), None)], 14.5)
    ensures Mismatch([Row(a, "x", None, Num(2.0), Num(5.0), None), Row(b, "y", None, Num(3.0), Num(1.5), None)], 20.0)
  {
    var rows := [Row(a, "x", None, Num(2.0), Num(5.0), None), Row(b, "y", None, Num(3.0), Num(1.5), None)];
    assert rows[..1][..0] == [];
    assert rows[..1] == [rows[0]];
    assert SumOf(rows[..1], LineTotal) == LineTotal(rows[0]) == 10.0;
    assert LineTotal(rows[1]) == 4.5;
    assert RowsSum(rows) == 14.5;
  }

  // -----------------------------------------------------------------------
  // Row validation

  /** What the validation loop says about one row: the product name is
      checked before the project. */
  function RowError(r: Row): Option<Reason> {
    if IsBlank(r.productName) then Some(MissingProduct)
    else if r.projectId.None? then Some(MissingProject)
    else None
  }

  /** The validation `for` loop: the complaint about the first bad row, if
      any row is bad. */
  function ItemsError(rows: seq<Row>): Option<Reason> {
    if rows == [] then None
    else if RowError(rows[0]).Some? then RowError(rows[0])
    else ItemsError(rows[1..])
  }

  /** The rows pass validation exactly when every row does. */
  lemma {:induction false} ItemsErrorNoneIff(rows: seq<Row>)
    ensures ItemsError(rows).None? <==> forall i :: 0 <= i < |rows| ==> RowError(rows[i]).None?
  {
    if rows != [] {
      ItemsErrorNoneIff(rows[1..]);
      assert forall i :: 1 <= i < |rows| ==> rows[i] == rows[1..][i - 1];
    }
  }

  /** The complaint is the one about the first bad row. */
  lemma {:induction false} ItemsErrorIsFirstBad(rows: seq<Row>, k: nat)
    requires k < |rows| && RowError(rows[k]).Some?
    requires forall j :: 0 <= j < k ==> RowError(rows[j]).None?
    ensures ItemsError(rows) == RowError(rows[k])
  {
    if k > 0 {
      var t := rows[1..];
      assert RowError(rows[0]).None?;
      assert t[k - 1] == rows[k];
      forall j | 0 <= j < k - 1 ensures RowError(t[j]).None? {
        assert t[j] == rows[j + 1];
      }
      ItemsErrorIsFirstBad(t, k - 1);
    }
  }

  lemma {:induction false} ItemsErrorAppend(a: seq<Row>, b: seq<Row>)
    ensures ItemsError(a + b) == if ItemsError(a).Some? then ItemsError(a) else ItemsError(b)
  {
    if a == [] {
      assert a + b == b;
    } else {
      assert (a + b)[0] == a[0];
      assert (a + b)[1..] == a[1..] + b;
      ItemsErrorAppend(a[1..], b);
    }
  }

  /** The validation `for` loop as the handlers run it: the rows are checked
      in order and the first complaint is returned. */
  method CheckRows(rows: seq<Row>) returns (e: Option<Reason>)
    ensures e == ItemsError(rows)
  {
    var i := 0;
    while i < |rows|
      invariant 0 <= i <= |rows|
      invariant forall j :: 0 <= j < i ==> RowError(rows[j]).None?
    {
      e := RowError(rows[i]);
      if e.Some? {
        ItemsErrorIsFirstBad(rows, i);
        return;
      }
      i := i + 1;
    }
    ItemsErrorNoneIff(rows);
    e := None;
  }

  /** The `reduce` accumulating the line totals from left to right. */
  method SumRows(rows: seq<Row>) returns (sum: real)
    ensures sum == RowsSum(rows)
  {
    sum := 0.0;
    var i := 0;
    while i < |rows|
      invariant 0 <= i <= |rows|
      invariant sum == RowsSum(rows[..i])
    {
      assert rows[..i + 1][..i] == rows[..i];
      sum := sum + LineTotal(rows[i]);
      i := i + 1;
    }
    assert rows[..|rows|] == rows;
  }

  // -----------------------------------------------------------------------
  // Payload

  /** The rows as written, each through `Prepare`. */
  function PrepareItems(rows: seq<Row>): (items: seq<StoredItem>)
    ensures |items| == |rows|
    decreases |rows|
  {
    if rows == [] then [] else PrepareItems(rows[..|rows| - 1]) + [Prepare(rows[|rows| - 1])]
  }

  /** The payload keeps the rows' count and order and every field, and
      writes blank amounts as 0. */
  lemma {:induction false} PrepareItemsPointwise(rows: seq<Row>)
    ensures forall i :: 0 <= i < |rows| ==>
      && PrepareItems(rows)[i].id == rows[i].id
      && PrepareItems(rows)[i].productName == rows[i].productName
      && PrepareItems(rows)[i].productId == rows[i].productId
      && PrepareItems(rows)[i].projectId == rows[i].projectId
      && PrepareItems(rows)[i].qty == AsNumber(rows[i].qty)
      && PrepareItems(rows)[i].unitPrice == AsNumber(rows[i].unitPrice)
    decreases |rows|
  {
    if rows != [] {
      var n := |rows| - 1;
      PrepareItemsPointwise(rows[..n]);
      assert forall i :: 0 <= i < n ==> PrepareItems(rows)[i] == PrepareItems(rows[..n])[i] && rows[..n][i] == rows[i];
    }
  }

  /** The written items add up to exactly the sum the reconciliation checked. */
  lemma {:induction false} PreparedSum(rows: seq<Row>)
    ensures SumOf(PrepareItems(rows), StoredLineTotal) == RowsSum(rows)
    decreases |rows|
  {
    if rows != [] {
      var n := |rows| - 1;
      var items := PrepareItems(rows);
      PreparedSum(rows[..n]);
      assert items[..n] == PrepareItems(rows[..n]);
      assert items[n] == Prepare(rows[n]);
      assert SumOf(items, StoredLineTotal) == SumOf(items[..n], StoredLineTotal) + StoredLineTotal(items[n]);
    }
  }

  /** `x.qty ?? ""` and friends: an item as it is put back into the editor. */
  function EditRow(x: StoredItem): Row {
    Row(x.id, x.productName, x.productId, Num(x.qty), Num(x.unitPrice), x.projectId)
  }

  function EditRows(items: seq<StoredItem>): (rows: seq<Row>)
    ensures |rows| == |items|
    ensures forall i :: 0 <= i < |items| ==> rows[i] == EditRow(items[i])
  {
    if items == [] then [] else [EditRow(items[0])] + EditRows(items[1..])
  }

  /** Loading stored items into the editor and writing them back unchanged
      reproduces the stored items. */
  lemma EditRowsRoundTrip(items: seq<StoredItem>)
    ensures PrepareItems(EditRows(items)) == items
  {
    PrepareItemsPointwise(EditRows(items));
    var back := PrepareItems(EditRows(items));
    forall i | 0 <= i < |items| ensures back[i] == items[i] { }
  }
}
