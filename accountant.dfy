/** The accountant's report: every stored invoice, narrowed on request by
    supplier and by a date range, with the sum of the shown totals. */
module AccountantView {
  import opened Common
  import opened Store

  // -----------------------------------------------------------------------
  // Dates

  /** Calendar dates as the date inputs give them, `YYYY-MM-DD`; for strings
      of that shape the order of `new Date(...)` is the lexicographic order
      of the characters. */
  predicate DateLe(a: string, b: string)
    decreases |a|
  {
    a == [] || (b != [] && (a[0] < b[0] || (a[0] == b[0] && DateLe(a[1..], b[1..]))))
  }

  /** Any two dates are comparable. */
  lemma {:induction false} DateLeTotal(a: string, b: string)
    ensures DateLe(a, b) || DateLe(b, a)
    decreases |a|
  {
    if a != [] && b != [] && a[0] == b[0] {
      DateLeTotal(a[1..], b[1..]);
    }
  }

  lemma {:induction false} DateLeTransitive(a: string, b: string, c: string)
    requires DateLe(a, b) && DateLe(b, c)
    ensures DateLe(a, c)
    decreases |a|
  {
    if a != [] && a[0] == b[0] && b[0] == c[0] {
      DateLeTransitive(a[1..], b[1..], c[1..]);
    }
  }

  // -----------------------------------------------------------------------
  // The filters

  /** `i.supplier === selectedSupplier`, applied only when a supplier is
      selected. */
  predicate SupplierTest(i: Invoice, selected: string) {
    selected == "" || i.supplier == Some(selected)
  }

  /** `new Date(i.date) >= new Date(dateFrom)`, applied only when set. */
  predicate FromTest(i: Invoice, dateFrom: string) {
    dateFrom == "" || DateLe(dateFrom, i.date)
  }

  /** `new Date(i.date) <= new Date(dateTo)`, applied only when set. */
  predicate ToTest(i: Invoice, dateTo: string) {
    dateTo == "" || DateLe(i.date, dateTo)
  }

  /** The three filters as one test. */
  predicate Passes(i: Invoice, selected: string, dateFrom: string, dateTo: string) {
    SupplierTest(i, selected) && FromTest(i, dateFrom) && ToTest(i, dateTo)
  }

  /** What `applyFilters` shows: the invoices that pass all three tests. */
  function FilterBy(invoices: seq<Invoice>, selected: string, dateFrom: string, dateTo: string): seq<Invoice> {
    Filter(invoices, (i: Invoice) => Passes(i, selected, dateFrom, dateTo))
  }

  /** The body of `applyFilters`: start from all invoices and narrow the
      result once per filter that is set. */
  method RunFilters(invoices: seq<Invoice>, selected: string, dateFrom: string, dateTo: string)
    returns (result: seq<Invoice>)
    ensures result == FilterBy(invoices, selected, dateFrom, dateTo)
  {
    var s1 := (i: Invoice) => SupplierTest(i, selected);
    var s2 := (i: Invoice) => SupplierTest(i, selected) && FromTest(i, dateFrom);
    var s3 := (i: Invoice) => Passes(i, selected, dateFrom, dateTo);
    result := invoices;
    if selected != "" {
      result := Filter(result, (i: Invoice) => i.supplier == Some(selected));
      FilterCongruent(invoices, (i: Invoice) => i.supplier == Some(selected), s1);
    } else {
      FilterKeepsAll(invoices, s1);
    }
    assert result == Filter(invoices, s1);
    if dateFrom != "" {
      var q := (i: Invoice) => DateLe(dateFrom, i.date);
      FilterFilter(invoices, s1, q, s2);
      result := Filter(result, q);
    } else {
      FilterCongruent(invoices, s1, s2);
    }
    assert result == Filter(invoices, s2);
    if dateTo != "" {
      var q := (i: Invoice) => DateLe(i.date, dateTo);
      FilterFilter(invoices, s2, q, s3);
      result := Filter(result, q);
    } else {
      FilterCongruent(invoices, s2, s3);
    }
  }

  /** The shown invoices are exactly those that pass every set filter, in
      their stored order. */
  lemma FilterByMembership(invoices: seq<Invoice>, selected: string, dateFrom: string, dateTo: string)
    ensures forall i :: i in FilterBy(invoices, selected, dateFrom, dateTo) <==>
      && i in invoices
      && (selected != "" ==> i.supplier == Some(selected))
      && (dateFrom != "" ==> DateLe(dateFrom, i.date))
      && (dateTo != "" ==> DateLe(i.date, dateTo))
    ensures IsSubsequence(FilterBy(invoices, selected, dateFrom, dateTo), invoices)
  {
    FilterIsSubsequence(invoices, (i: Invoice) => Passes(i, selected, dateFrom, dateTo));
  }

  /** With no filter set every invoice is shown. */
  lemma NoFiltersKeepAll(invoices: seq<Invoice>)
    ensures FilterBy(invoices, "", "", "") == invoices
  {
    FilterKeepsAll(invoices, (i: Invoice) => Passes(i, "", "", ""));
  }

  /** Moving the start date later can only hide invoices. */
  lemma LaterStartShowsFewer(invoices: seq<Invoice>, selected: string, from1: string, from2: string, dateTo: string)
    requires from1 != "" && DateLe(from1, from2)
    ensures forall i :: i in FilterBy(invoices, selected, from2, dateTo) ==> i in FilterBy(invoices, selected, from1, dateTo)
  {
    assert from2 != "";
    forall i | Passes(i, selected, from2, dateTo) ensures FromTest(i, from1) {
      DateLeTransitive(from1, from2, i.date);
    }
  }

  // -----------------------------------------------------------------------
  // Supplier options and the total

  /** `[...new Set(data.map((i) => i.supplier))]`. */
  function SupplierOptions(data: seq<Invoice>): seq<Option<string>> {
    Distinct(MapSeq(data, (i: Invoice) => i.supplier))
  }

  /** The supplier options hold every supplier value that occurs (a missing
      one too), each once, in the order they first occur. */
  lemma SupplierOptionsSpec(data: seq<Invoice>)
    ensures forall x :: x in SupplierOptions(data) <==> exists i :: i in data && i.supplier == x
    ensures NoDuplicates(SupplierOptions(data))
    ensures var all := MapSeq(data, (i: Invoice) => i.supplier);
      forall a, b :: 0 <= a < b < |SupplierOptions(data)| ==>
        FirstIndex(all, SupplierOptions(data)[a]) < FirstIndex(all, SupplierOptions(data)[b])
  {
    var all := MapSeq(data, (i: Invoice) => i.supplier);
    DistinctInFirstOccurrenceOrder(all);
    forall x ensures x in all <==> exists i :: i in data && i.supplier == x {
      if x in all {
        var k :| 0 <= k < |all| && all[k] == x;
        assert data[k] in data;
      }
      if exists i :: i in data && i.supplier == x {
        var i :| i in data && i.supplier == x;
        var k :| 0 <= k < |data| && data[k] == i;
        assert all[k] == x;
      }
    }
  }

  /** `Number(i.total_cost || 0)`. */
  function InvoiceTotal(i: Invoice): real {
    i.totalCost.GetOr(0.0)
  }

  /** `totalSum`: the running sum of the shown totals. */
  function TotalOf(invoices: seq<Invoice>): real {
    SumOf(invoices, InvoiceTotal)
  }

  /** The grand total is the selected supplier's total plus everyone
      else's. */
  lemma TotalSplitsBySupplier(invoices: seq<Invoice>, selected: string)
    requires selected != ""
    ensures TotalOf(invoices) ==
      TotalOf(FilterBy(invoices, selected, "", "")) + TotalOf(Filter(invoices, (i: Invoice) => i.supplier != Some(selected)))
  {
    SumOfPartition(invoices, (i: Invoice) => Passes(i, selected, "", ""), (i: Invoice) => i.supplier != Some(selected), InvoiceTotal);
  }

  /** With no negative totals stored, narrowing never raises the total. */
  lemma {:induction false} FilteredTotalAtMostAll(invoices: seq<Invoice>, selected: string, dateFrom: string, dateTo: string)
    requires forall i :: i in invoices ==> InvoiceTotal(i) >= 0.0
    ensures 0.0 <= TotalOf(FilterBy(invoices, selected, dateFrom, dateTo)) <= TotalOf(invoices)
  {
    var p := (i: Invoice) => Passes(i, selected, dateFrom, dateTo);
    var notP := (i: Invoice) => !Passes(i, selected, dateFrom, dateTo);
    SumOfPartition(invoices, p, notP, InvoiceTotal);
    TotalNonNegative(Filter(invoices, p));
    TotalNonNegative(Filter(invoices, notP));
  }

  lemma {:induction false} TotalNonNegative(invoices: seq<Invoice>)
    requires forall i :: i in invoices ==> InvoiceTotal(i) >= 0.0
    ensures TotalOf(invoices) >= 0.0
    decreases |invoices|
  {
    if invoices != [] {
      var n := |invoices| - 1;
      assert forall i :: i in invoices[..n] ==> i in invoices;
      TotalNonNegative(invoices[..n]);
      assert invoices[n] in invoices;
    }
  }

  // -----------------------------------------------------------------------
  // The page

  class AccountantPage {
    var invoices: seq<Invoice>
    var filtered: seq<Invoice>
    var suppliers: seq<Option<string>>
    var selectedSupplier: string
    var dateFrom: string
    var dateTo: string

    /** The total under the table. */
    function TotalSum(): real
      reads this
    {
      TotalOf(filtered)
    }

    constructor()
      ensures invoices == [] && filtered == [] && suppliers == []
      ensures selectedSupplier == "" && dateFrom == "" && dateTo == ""
    {
      invoices, filtered, suppliers := [], [], [];
      selectedSupplier, dateFrom, dateTo := "", "", "";
    }

    /** `loadInvoices`: a failed query (`None`) is reported and changes
        nothing; otherwise the list, the supplier options and the shown
        invoices are all the reply. */
    method LoadInvoices(reply: Option<seq<Invoice>>)
      modifies this
      ensures reply.None? ==>
        invoices == old(invoices) && suppliers == old(suppliers) && filtered == old(filtered)
      ensures reply.Some? ==>
        invoices == reply.value && filtered == reply.value && suppliers == SupplierOptions(reply.value)
      ensures selectedSupplier == old(selectedSupplier) && dateFrom == old(dateFrom) && dateTo == old(dateTo)
    {
      if reply.None? {
        return;
      }
      invoices := reply.value;
      suppliers := SupplierOptions(reply.value);
      filtered := reply.value;
    }

    /** `applyFilters`. */
    method ApplyFilters()
      modifies this
      ensures filtered == FilterBy(invoices, selectedSupplier, dateFrom, dateTo)
      ensures invoices == old(invoices) && suppliers == old(suppliers)
      ensures selectedSupplier == old(selectedSupplier) && dateFrom == old(dateFrom) && dateTo == old(dateTo)
    {
      filtered := RunFilters(invoices, selectedSupplier, dateFrom, dateTo);
    }

    /** `clearFilters`: every filter emptied and every invoice shown. */
    method ClearFilters()
      modifies this
      ensures selectedSupplier == "" && dateFrom == "" && dateTo == ""
      ensures filtered == invoices && filtered == FilterBy(invoices, selectedSupplier, dateFrom, dateTo)
      ensures invoices == old(invoices) && suppliers == old(suppliers)
    {
      selectedSupplier, dateFrom, dateTo := "", "", "";
      filtered := invoices;
      NoFiltersKeepAll(invoices);
    }
  }
}
