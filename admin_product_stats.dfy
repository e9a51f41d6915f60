/** The administrator's statistics for one product: the purchase history of
    every product, the list of product names to choose from, and for the
    chosen product the total quantity bought and the quantity bought on each
    invoice date. */
module AdminProductStats {
  import opened Common

  /** A row of the `product_purchases` view: which product, on which
      invoice date (`YYYY-MM-DD`), and how much of it. */
  datatype Purchase = Purchase(productName: string, invoiceDate: string, qty: real)

  /** One point of the line chart. */
  datatype Point = Point(date: string, qty: real)

  /** `Number(row.qty)`. */
  function Qty(p: Purchase): real {
    p.qty
  }

  // -----------------------------------------------------------------------
  // The product list

  /** `[...new Set(data.map((d) => d.product_name))]`. */
  function ProductOptions(data: seq<Purchase>): seq<string> {
    Distinct(MapSeq(data, (d: Purchase) => d.productName))
  }

  /** The product list names every product that occurs in the history, each
      once, in the order in which it first occurs. */
  lemma ProductOptionsSpec(data: seq<Purchase>)
    ensures forall x :: x in ProductOptions(data) <==> exists d :: d in data && d.productName == x
    ensures NoDuplicates(ProductOptions(data))
    ensures var all := MapSeq(data, (d: Purchase) => d.productName);
      forall a, b :: 0 <= a < b < |ProductOptions(data)| ==>
        FirstIndex(all, ProductOptions(data)[a]) < FirstIndex(all, ProductOptions(data)[b])
  {
    var all := MapSeq(data, (d: Purchase) => d.productName);
    DistinctInFirstOccurrenceOrder(all);
    forall x ensures x in all <==> exists d :: d in data && d.productName == x {
      if x in all {
        var k :| 0 <= k < |all| && all[k] == x;
        assert data[k] in data;
      }
      if exists d :: d in data && d.productName == x {
        var d :| d in data && d.productName == x;
        var k :| 0 <= k < |data| && data[k] == d;
        assert all[k] == x;
      }
    }
  }

  // -----------------------------------------------------------------------
  // The rows of the chosen product

  /** `filtered`: nothing while no product is chosen, otherwise the rows of
      the chosen product. */
  function Selected(data: seq<Purchase>, product: string): seq<Purchase> {
    if product == "" then [] else Filter(data, (d: Purchase) => d.productName == product)
  }

  /** With no product chosen nothing is shown; otherwise exactly the rows of
      the chosen product are, in the order of the history. */
  lemma SelectedSpec(data: seq<Purchase>, product: string)
    ensures product == "" ==> Selected(data, product) == []
    ensures product != "" ==> forall d :: d in Selected(data, product) <==> d in data && d.productName == product
    ensures product != "" ==>
      forall d :: multiset(Selected(data, product))[d] == (if d.productName == product then multiset(data)[d] else 0)
    ensures IsSubsequence(Selected(data, product), data)
  {
    if product != "" {
      FilterIsSubsequence(data, (d: Purchase) => d.productName == product);
      FilterMultiset(data, (d: Purchase) => d.productName == product);
    } else {
      FilterNone(data, (d: Purchase) => false);
      FilterIsSubsequence(data, (d: Purchase) => false);
    }
  }

  // -----------------------------------------------------------------------
  // Quantities by date

  /** The dates of the rows, with repeats, in row order. */
  function DateColumn(rows: seq<Purchase>): seq<string> {
    MapSeq(rows, (d: Purchase) => d.invoiceDate)
  }

  /** The keys of `aggregated` in the order they were first set, which is
      the order `Object.entries` lists them in (no date is an array index). */
  function Dates(rows: seq<Purchase>): seq<string> {
    Distinct(DateColumn(rows))
  }

  /** The quantity bought on date `d`: the sum of `qty` over the rows dated
      `d`, accumulated row by row as the reduce does. */
  function QtyOn(rows: seq<Purchase>, d: string): real
    decreases |rows|
  {
    if rows == [] then 0.0
    else
      var last := rows[|rows| - 1];
      QtyOn(rows[..|rows| - 1], d) + (if last.invoiceDate == d then last.qty else 0.0)
  }

  /** The line for `keys`: one point per key, carrying that key's quantity. */
  function PointsFor(keys: seq<string>, rows: seq<Purchase>): (r: seq<Point>)
    ensures |r| == |keys|
    ensures forall i :: 0 <= i < |keys| ==> r[i] == Point(keys[i], QtyOn(rows, keys[i]))
    decreases |keys|
  {
    if keys == [] then []
    else PointsFor(keys[..|keys| - 1], rows) + [Point(keys[|keys| - 1], QtyOn(rows, keys[|keys| - 1]))]
  }

  /** `lineData`: one point per distinct date, in first-occurrence order. */
  function LineData(rows: seq<Purchase>): seq<Point> {
    PointsFor(Dates(rows), rows)
  }

  /** `totalQty`. */
  function TotalQty(rows: seq<Purchase>): real {
    SumOf(rows, Qty)
  }

  /** The sum of the quantities of the line's points. */
  function LineTotal(points: seq<Point>): real
    decreases |points|
  {
    if points == [] then 0.0 else LineTotal(points[..|points| - 1]) + points[|points| - 1].qty
  }

  /** The sum over `keys` of the quantity on each key. */
  function SumByDate(keys: seq<string>, rows: seq<Purchase>): real
    decreases |keys|
  {
    if keys == [] then 0.0 else SumByDate(keys[..|keys| - 1], rows) + QtyOn(rows, keys[|keys| - 1])
  }

  /** No row is dated `d`, so nothing was bought on `d`. */
  lemma {:induction false} QtyOnAbsent(rows: seq<Purchase>, d: string)
    requires d !in DateColumn(rows)
    ensures QtyOn(rows, d) == 0.0
    decreases |rows|
  {
    if rows != [] {
      var n := |rows| - 1;
      assert DateColumn(rows[..n]) == DateColumn(rows)[..n];
      QtyOnAbsent(rows[..n], d);
      assert DateColumn(rows)[n] == rows[n].invoiceDate;
    }
  }

  lemma DateColumnSnoc(pre: seq<Purchase>, x: Purchase)
    ensures DateColumn(pre + [x]) == DateColumn(pre) + [x.invoiceDate]
  {
  }

  /** A further row adds a date to the keys only when the date is new. */
  lemma DatesSnoc(pre: seq<Purchase>, x: Purchase)
    ensures Dates(pre + [x]) == if x.invoiceDate in Dates(pre) then Dates(pre) else Dates(pre) + [x.invoiceDate]
  {
    var col := DateColumn(pre + [x]);
    DateColumnSnoc(pre, x);
    assert col[..|col| - 1] == DateColumn(pre);
  }

  /** A further row adds its quantity to the sum over `keys` exactly when
      its date is one of the keys, and then once. */
  lemma {:induction false} SumByDateSnoc(keys: seq<string>, pre: seq<Purchase>, x: Purchase)
    requires NoDuplicates(keys)
    ensures SumByDate(keys, pre + [x]) == SumByDate(keys, pre) + (if x.invoiceDate in keys then x.qty else 0.0)
    decreases |keys|
  {
    var rows := pre + [x];
    assert rows[..|pre|] == pre;
    if keys != [] {
      var n := |keys| - 1;
      var init := keys[..n];
      assert NoDuplicates(init);
      SumByDateSnoc(init, pre, x);
      assert x.invoiceDate in keys <==> x.invoiceDate in init || x.invoiceDate == keys[n];
      assert keys[n] !in init;
    }
  }

  /** Summing the per-date quantities over the dates that occur gives the
      total quantity. */
  lemma {:induction false} SumByDatesIsTotal(rows: seq<Purchase>)
    ensures SumByDate(Dates(rows), rows) == TotalQty(rows)
    decreases |rows|
  {
    if rows != [] {
      var n := |rows| - 1;
      var pre, x := rows[..n], rows[n];
      assert rows == pre + [x];
      SumByDatesIsTotal(pre);
      DatesSnoc(pre, x);
      var keys := Dates(pre);
      SumByDateSnoc(keys, pre, x);
      if x.invoiceDate !in keys {
        var ks := keys + [x.invoiceDate];
        assert ks[..|ks| - 1] == keys;
        QtyOnAbsent(pre, x.invoiceDate);
        assert rows[..n] == pre;
      }
    }
  }

  lemma {:induction false} LineTotalOfPoints(keys: seq<string>, rows: seq<Purchase>)
    ensures LineTotal(PointsFor(keys, rows)) == SumByDate(keys, rows)
    decreases |keys|
  {
    if keys != [] {
      var n := |keys| - 1;
      LineTotalOfPoints(keys[..n], rows);
      var ps := PointsFor(keys, rows);
      assert ps[..n] == PointsFor(keys[..n], rows);
    }
  }

  /** The line chart and the bar chart agree: the quantities by date add up
      to the total quantity. */
  lemma LineDataAddsUpToTotal(rows: seq<Purchase>)
    ensures LineTotal(LineData(rows)) == TotalQty(rows)
  {
    LineTotalOfPoints(Dates(rows), rows);
    SumByDatesIsTotal(rows);
  }

  /** The line has one point per date that occurs, each date once, in the
      order of first occurrence, and each carrying that date's quantity. */
  lemma LineDataSpec(rows: seq<Purchase>)
    ensures var line := LineData(rows);
      && (forall d :: (exists i :: 0 <= i < |line| && line[i].date == d) <==> d in DateColumn(rows))
      && (forall i, j :: 0 <= i < j < |line| ==> line[i].date != line[j].date)
      && (forall i :: 0 <= i < |line| ==> line[i].qty == QtyOn(rows, line[i].date))
  {
    var line := LineData(rows);
    var keys := Dates(rows);
    forall d ensures (exists i :: 0 <= i < |line| && line[i].date == d) <==> d in DateColumn(rows) {
      if d in keys {
        var i :| 0 <= i < |keys| && keys[i] == d;
        assert line[i].date == d;
      }
    }
  }

  /** `aggregated`: the reduce that fills a dictionary from date to
      quantity, one row at a time. The keys come back in insertion order. */
  method Aggregate(rows: seq<Purchase>) returns (keys: seq<string>, acc: map<string, real>)
    ensures keys == Dates(rows)
    ensures forall d :: d in acc <==> d in DateColumn(rows)
    ensures forall d :: d in acc ==> acc[d] == QtyOn(rows, d)
  {
    keys, acc := [], map[];
    var i := 0;
    while i < |rows|
      invariant 0 <= i <= |rows|
      invariant keys == Dates(rows[..i])
      invariant forall d :: d in acc <==> d in keys
      invariant forall d :: d in acc ==> acc[d] == QtyOn(rows[..i], d)
    {
      var x := rows[i];
      var pre := rows[..i];
      assert rows[..i + 1] == pre + [x];
      assert (pre + [x])[..i] == pre;
      DatesSnoc(pre, x);
      var before := if x.invoiceDate in acc then acc[x.invoiceDate] else 0.0;
      if x.invoiceDate !in acc {
        QtyOnAbsent(pre, x.invoiceDate);
        keys := keys + [x.invoiceDate];
      }
      acc := acc[x.invoiceDate := before + x.qty];
      i := i + 1;
    }
    assert rows[..i] == rows;
  }

  /** `Object.entries(aggregated).map(...)`: the entries as points, in key
      order. */
  function Entries(keys: seq<string>, acc: map<string, real>): (r: seq<Point>)
    requires forall d :: d in keys ==> d in acc
    ensures |r| == |keys|
    ensures forall i :: 0 <= i < |keys| ==> r[i] == Point(keys[i], acc[keys[i]])
    decreases |keys|
  {
    if keys == [] then [] else [Point(keys[0], acc[keys[0]])] + Entries(keys[1..], acc)
  }

  // -----------------------------------------------------------------------
  // The page

  class StatsPage {
    var data: seq<Purchase>
    var products: seq<string>
    var selectedProduct: string

    constructor()
      ensures data == [] && products == [] && selectedProduct == ""
    {
      data, products, selectedProduct := [], [], "";
    }

    /** `filtered`. */
    function Filtered(): seq<Purchase>
      reads this
    {
      Selected(data, selectedProduct)
    }

    /** `loadData`: a failed query (`None`) is reported and changes nothing;
        otherwise the history and the product list both come from the
        reply. */
    method LoadData(reply: Option<seq<Purchase>>)
      modifies this
      ensures reply.None? ==> data == old(data) && products == old(products)
      ensures reply.Some? ==> data == reply.value && products == ProductOptions(reply.value)
      ensures selectedProduct == old(selectedProduct)
    {
      if reply.None? {
        return;
      }
      data := reply.value;
      products := ProductOptions(reply.value);
    }

    /** The product select. */
    method SelectProduct(name: string)
      modifies this
      ensures selectedProduct == name && data == old(data) && products == old(products)
    {
      selectedProduct := name;
    }

    /** What the two charts show for the chosen product: the points by date
        and the total quantity, which add up to the same amount. */
    method Charts() returns (lineData: seq<Point>, totalQty: real)
      ensures lineData == LineData(Filtered())
      ensures totalQty == TotalQty(Filtered())
      ensures LineTotal(lineData) == totalQty
    {
      var rows := Filtered();
      var keys, acc := Aggregate(rows);
      lineData := Entries(keys, acc);
      totalQty := SumOf(rows, Qty);
      LineDataAddsUpToTotal(rows);
    }
  }
}
