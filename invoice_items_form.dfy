/** The form that attaches line items to an existing invoice: a list of rows
    keyed by a row id, and a save that walks the rows in order, resolving or
    creating each row's product by its normalized name and writing one item
    per row, stopping at the first row that fails. */
module InvoiceItemsForm {
  import opened Common
  import opened Text
  import opened Store

  // -----------------------------------------------------------------------
  // normalizeName

  /** The characters of the class `[.,\s]`. */
  predicate IsRunChar(c: char) {
    c == '.' || c == ',' || IsSpace(c)
  }

  /** The end of the run of `[.,\s]` characters that starts at `i`. */
  function RunEnd(s: string, i: nat): (j: nat)
    requires i <= |s|
    ensures i <= j <= |s|
    ensures forall k :: i <= k < j ==> IsRunChar(s[k])
    ensures j < |s| ==> !IsRunChar(s[j])
    decreases |s| - i
  {
    if i < |s| && IsRunChar(s[i]) then RunEnd(s, i + 1) else i
  }

  /** `replace(/[.,\s]+/g, " ")`: every maximal run of dots, commas and white
      space becomes one space. */
  function Collapse(s: string): string
    decreases |s|
  {
    if s == [] then []
    else if IsRunChar(s[0]) then " " + Collapse(s[RunEnd(s, 1)..])
    else [s[0]] + Collapse(s[1..])
  }

  /** The collapsed text holds only spaces and the other characters of the
      input, starts with a space exactly when the input starts with a
      separator, and never has two separators side by side. */
  lemma {:induction false} CollapseShape(s: string)
    ensures var r := Collapse(s);
      && (forall c :: c in r ==> c == ' ' || (c in s && !IsRunChar(c)))
      && (s != [] ==> r != [] && (r[0] == ' ' <==> IsRunChar(s[0])))
      && (forall i, j :: 0 <= i && j == i + 1 < |r| ==> !(IsRunChar(r[i]) && IsRunChar(r[j])))
    decreases |s|
  {
    if s != [] {
      var r := Collapse(s);
      if IsRunChar(s[0]) {
        var e := RunEnd(s, 1);
        var t := s[e..];
        CollapseShape(t);
        assert r == " " + Collapse(t);
        forall c | c in t ensures c in s {
          var k :| 0 <= k < |t| && t[k] == c;
          assert s[e + k] == c;
        }
      } else {
        var t := s[1..];
        CollapseShape(t);
        assert r == [s[0]] + Collapse(t);
        forall c | c in t ensures c in s {
          var k :| 0 <= k < |t| && t[k] == c;
          assert s[1 + k] == c;
        }
      }
    }
  }

  /** `normalizeName`: trimmed, lower-cased, runs collapsed. */
  function NormalizeName(name: string): string {
    Collapse(Lower(Trim(name)))
  }

  function Words(s: string): string {
    Filter(s, (c: char) => !IsRunChar(c))
  }

  lemma WordsOfRun(s: string, j: nat)
    requires j <= |s|
    requires forall k :: 0 <= k < j ==> IsRunChar(s[k])
    ensures Words(s) == Words(s[j..])
  {
    var keep := (c: char) => !IsRunChar(c);
    assert s == s[..j] + s[j..];
    FilterAppend(s[..j], s[j..], keep);
    FilterNone(s[..j], keep);
  }

  /** Collapsing keeps every other character, in order: only the separators
      between them change. */
  lemma {:induction false} CollapseKeepsWords(s: string)
    ensures Words(Collapse(s)) == Words(s)
    decreases |s|
  {
    var keep := (c: char) => !IsRunChar(c);
    if s != [] {
      if IsRunChar(s[0]) {
        var j := RunEnd(s, 1);
        CollapseKeepsWords(s[j..]);
        FilterAppend(" ", Collapse(s[j..]), keep);
        WordsOfRun(s, j);
      } else {
        CollapseKeepsWords(s[1..]);
        FilterAppend([s[0]], Collapse(s[1..]), keep);
        FilterAppend([s[0]], s[1..], keep);
        assert s == [s[0]] + s[1..];
      }
    }
  }

  /** Every character is a dot, a comma or white space. */
  predicate AllRun(s: string) {
    forall k :: 0 <= k < |s| ==> IsRunChar(s[k])
  }

  lemma {:induction false} RunEndAppend(u: string, x: string, i: nat)
    requires i <= |u| && RunEnd(u, i) < |u|
    ensures RunEnd(u + x, i) == RunEnd(u, i)
    decreases |u| - i
  {
    if IsRunChar(u[i]) {
      RunEndAppend(u, x, i + 1);
    }
  }

  lemma {:induction false} RunEndOfRun(run: string, v: string, i: nat)
    requires AllRun(run) && i <= |run|
    requires v == [] || !IsRunChar(v[0])
    ensures RunEnd(run + v, i) == |run|
    decreases |run| - i
  {
    if i < |run| {
      RunEndOfRun(run, v, i + 1);
    }
  }

  lemma CollapseRunHead(s: string)
    requires s != [] && IsRunChar(s[0])
    ensures Collapse(s) == " " + Collapse(s[RunEnd(s, 1)..])
  {
  }

  lemma CollapseWordHead(s: string)
    requires s != [] && !IsRunChar(s[0])
    ensures Collapse(s) == [s[0]] + Collapse(s[1..])
  {
  }

  /** A maximal run of dots, commas and white space becomes exactly one
      space, and the text on each side is collapsed on its own: nothing is
      merged across the run and nothing else is inserted. */
  lemma {:induction false} CollapseSplitsAtRun(u: string, run: string, v: string)
    requires run != [] && AllRun(run)
    requires u == [] || !IsRunChar(u[|u| - 1])
    requires v == [] || !IsRunChar(v[0])
    ensures Collapse(u + run + v) == Collapse(u) + " " + Collapse(v)
    decreases |u|, 1
  {
    if u == [] {
      var w := u + run + v;
      assert w == run + v;
      RunEndOfRun(run, v, 1);
      assert w[|run|..] == v;
      CollapseRunHead(w);
    } else if IsRunChar(u[0]) {
      SplitAfterLeadingRun(u, run, v);
    } else {
      SplitAfterWordChar(u, run, v);
    }
  }

  /** A run cannot pass a character that is not part of any run. */
  lemma {:induction false} RunEndsInside(u: string, i: nat)
    requires i < |u| && !IsRunChar(u[|u| - 1])
    ensures RunEnd(u, i) < |u|
    decreases |u| - i
  {
    if IsRunChar(u[i]) {
      RunEndsInside(u, i + 1);
    }
  }

  lemma DropAfterPrefix(u: string, run: string, v: string, e: nat)
    requires e <= |u|
    ensures (u + run + v)[e..] == u[e..] + run + v
    ensures u + run + v == u + (run + v)
  {
  }

  lemma {:induction false} SplitAfterLeadingRun(u: string, run: string, v: string)
    requires run != [] && AllRun(run)
    requires u != [] && IsRunChar(u[0]) && !IsRunChar(u[|u| - 1])
    requires v == [] || !IsRunChar(v[0])
    ensures Collapse(u + run + v) == Collapse(u) + " " + Collapse(v)
    decreases |u|, 0
  {
    var e := RunEnd(u, 1);
    RunEndsInside(u, 1);
    RunEndAppend(u, run + v, 1);
    DropAfterPrefix(u, run, v, e);
    CollapseSplitsAtRun(u[e..], run, v);
    CollapseRunHead(u + run + v);
    CollapseRunHead(u);
    var cu, cv := Collapse(u[e..]), Collapse(v);
    assert " " + (cu + " " + cv) == (" " + cu) + " " + cv;
  }

  lemma {:induction false} SplitAfterWordChar(u: string, run: string, v: string)
    requires run != [] && AllRun(run)
    requires u != [] && !IsRunChar(u[0]) && !IsRunChar(u[|u| - 1])
    requires v == [] || !IsRunChar(v[0])
    ensures Collapse(u + run + v) == Collapse(u) + " " + Collapse(v)
    decreases |u|, 0
  {
    var w := u + run + v;
    assert w[1..] == u[1..] + run + v;
    CollapseSplitsAtRun(u[1..], run, v);
    CollapseWordHead(w);
    CollapseWordHead(u);
    var cu, cv := Collapse(u[1..]), Collapse(v);
    assert [u[0]] + (cu + " " + cv) == ([u[0]] + cu) + " " + cv;
  }

  /** A normalized name holds no dot and no comma, never two white-space
      characters in a row, and the same other characters as the trimmed,
      lower-cased name, in the same order. */
  lemma NormalizeNameShape(name: string)
    ensures forall c :: c in NormalizeName(name) ==> c != '.' && c != ','
    ensures var r := NormalizeName(name);
      forall i, j :: 0 <= i && j == i + 1 < |r| ==> !(IsSpace(r[i]) && IsSpace(r[j]))
    ensures Words(NormalizeName(name)) == Words(Lower(Trim(name)))
  {
    CollapseShape(Lower(Trim(name)));
    CollapseKeepsWords(Lower(Trim(name)));
  }

  /** Normalizing is not idempotent: a trailing dot becomes a space, which
      the trim of a second pass removes. */
  lemma NormalizeNameNotIdempotent()
    ensures NormalizeName("a.") == "a "
    ensures NormalizeName("a ") == "a"
  {
    assert Trim("a.") == "a.";
    assert Lower("a.") == "a.";
    assert RunEnd("a.", 2) == 2;
    assert Collapse("a.") == "a" + Collapse(".");
    assert Trim("a ") == "a";
    assert Lower("a") == "a";
  }

  // -----------------------------------------------------------------------
  // The rows

  /** A row of the form; `projectId` is `None` while the select shows its
      placeholder. */
  datatype ItemRow = ItemRow(id: RowId, name: string, qty: Amount, unitPrice: Amount, projectId: Option<Id>)

  /** The field an input changes, with its new value. */
  datatype Field = Name(name: string) | Qty(qty: Amount) | UnitPrice(unitPrice: Amount) | ProjectId(projectId: Option<Id>)

  function BlankItemRow(id: RowId): ItemRow {
    ItemRow(id, "", Blank, Blank, None)
  }

  /** `{ ...i, [field]: value }`. */
  function SetField(r: ItemRow, f: Field): (r': ItemRow)
    ensures r'.id == r.id
    ensures r'.name == (if f.Name? then f.name else r.name)
    ensures r'.qty == (if f.Qty? then f.qty else r.qty)
    ensures r'.unitPrice == (if f.UnitPrice? then f.unitPrice else r.unitPrice)
    ensures r'.projectId == (if f.ProjectId? then f.projectId else r.projectId)
  {
    match f
    case Name(v) => r.(name := v)
    case Qty(v) => r.(qty := v)
    case UnitPrice(v) => r.(unitPrice := v)
    case ProjectId(v) => r.(projectId := v)
  }

  /** Setting the same field twice keeps only the second value. */
  lemma SetFieldLastWins(r: ItemRow, f: Field, g: Field)
    requires f.Name? == g.Name? && f.Qty? == g.Qty? && f.UnitPrice? == g.UnitPrice?
    ensures SetField(SetField(r, f), g) == SetField(r, g)
  {
  }

  /** `addRow`. */
  function AddItemRow(rows: seq<ItemRow>, id: RowId): (r: seq<ItemRow>)
    ensures |r| == |rows| + 1 && r[..|rows|] == rows && r[|rows|] == BlankItemRow(id)
  {
    rows + [BlankItemRow(id)]
  }

  /** `removeRow`: the rows with another id, in their order. */
  function RemoveItemRow(rows: seq<ItemRow>, id: RowId): (r: seq<ItemRow>)
    ensures forall x :: x in r <==> x in rows && x.id != id
    ensures forall x :: multiset(r)[x] == if x.id != id then multiset(rows)[x] else 0
    ensures IsSubsequence(r, rows)
  {
    FilterIsSubsequence(rows, (x: ItemRow) => x.id != id);
    FilterMultiset(rows, (x: ItemRow) => x.id != id);
    Filter(rows, (x: ItemRow) => x.id != id)
  }

  /** `updateItem`: the rows with the id get the field, nothing else
      changes. */
  function UpdateItemField(rows: seq<ItemRow>, id: RowId, f: Field): (r: seq<ItemRow>)
    ensures |r| == |rows|
    ensures forall i :: 0 <= i < |rows| && rows[i].id == id ==> r[i] == SetField(rows[i], f)
    ensures forall i :: 0 <= i < |rows| && rows[i].id != id ==> r[i] == rows[i]
  {
    UpdateWhere(rows, (x: ItemRow) => x.id == id, (x: ItemRow) => SetField(x, f))
  }

  /** Removing a row that was just added gives back the rows before it. */
  lemma RemoveAddedItemRow(rows: seq<ItemRow>, id: RowId)
    requires forall x :: x in rows ==> x.id != id
    ensures RemoveItemRow(AddItemRow(rows, id), id) == rows
  {
    var keep := (x: ItemRow) => x.id != id;
    FilterAppend(rows, [BlankItemRow(id)], keep);
    FilterKeepsAll(rows, keep);
  }

  /** Removing a row makes any earlier change to it invisible. */
  lemma {:induction false} RemoveAfterUpdateField(rows: seq<ItemRow>, id: RowId, f: Field)
    ensures RemoveItemRow(UpdateItemField(rows, id, f), id) == RemoveItemRow(rows, id)
  {
    if rows != [] {
      var u := UpdateItemField(rows, id, f);
      RemoveAfterUpdateField(rows[1..], id, f);
      assert u[1..] == UpdateItemField(rows[1..], id, f);
      assert u[0].id == rows[0].id;
    }
  }

  /** Row keys are pairwise distinct and all below the next key to hand
      out (the form draws keys from `Math.random()` and relies on them not
      colliding; the model hands out keys from a counter). */
  predicate ItemKeysFresh(rows: seq<ItemRow>, next: RowId) {
    && (forall i, j :: 0 <= i < j < |rows| ==> rows[i].id != rows[j].id)
    && (forall i :: 0 <= i < |rows| ==> rows[i].id < next)
  }

  /** The next key is not in use, and appending its row keeps the keys
      fresh. */
  lemma AddItemRowKeepsKeysFresh(rows: seq<ItemRow>, next: RowId)
    requires ItemKeysFresh(rows, next)
    ensures forall x :: x in rows ==> x.id != next
    ensures ItemKeysFresh(AddItemRow(rows, next), next + 1)
  {
    forall x | x in rows ensures x.id != next {
      var i :| 0 <= i < |rows| && rows[i] == x;
    }
  }

  lemma ItemKeysFreshTail(rows: seq<ItemRow>, next: RowId)
    requires rows != [] && ItemKeysFresh(rows, next)
    ensures ItemKeysFresh(rows[1..], next)
    ensures forall x :: x in rows[1..] ==> x.id != rows[0].id
  {
    var t := rows[1..];
    assert forall i :: 0 <= i < |t| ==> t[i] == rows[i + 1];
  }

  lemma ItemKeysFreshCons(x: ItemRow, rest: seq<ItemRow>, next: RowId)
    requires x.id < next && ItemKeysFresh(rest, next)
    requires forall y :: y in rest ==> y.id != x.id
    ensures ItemKeysFresh([x] + rest, next)
  {
    var r := [x] + rest;
    forall i, j | 0 <= i < j < |r| ensures r[i].id != r[j].id {
      assert r[j] == rest[j - 1];
      if i > 0 {
        assert r[i] == rest[i - 1];
      }
    }
  }

  lemma {:induction false} RemoveItemRowKeepsKeysFresh(rows: seq<ItemRow>, id: RowId, next: RowId)
    requires ItemKeysFresh(rows, next)
    ensures ItemKeysFresh(RemoveItemRow(rows, id), next)
  {
    if rows != [] {
      var t := rows[1..];
      ItemKeysFreshTail(rows, next);
      RemoveItemRowKeepsKeysFresh(t, id, next);
      if rows[0].id != id {
        assert RemoveItemRow(rows, id) == [rows[0]] + RemoveItemRow(t, id);
        ItemKeysFreshCons(rows[0], RemoveItemRow(t, id), next);
      } else {
        assert RemoveItemRow(rows, id) == RemoveItemRow(t, id);
      }
    }
  }

  lemma UpdateItemFieldKeepsKeysFresh(rows: seq<ItemRow>, id: RowId, f: Field, next: RowId)
    requires ItemKeysFresh(rows, next)
    ensures ItemKeysFresh(UpdateItemField(rows, id, f), next)
  {
  }

  // -----------------------------------------------------------------------
  // Product lookup

  /** `ilike("normalized_name", normalized)`: the stored key equals the
      given one up to case. */
  predicate NameMatches(p: Product, normalized: string) {
    p.normalizedName.Some? && Lower(p.normalizedName.value) == Lower(normalized)
  }

  /** The ids of the products the query returns, in their order. */
  function MatchingIds(products: seq<Product>, normalized: string): seq<Id>
    decreases |products|
  {
    if products == [] then []
    else
      (if NameMatches(products[0], normalized) then [products[0].id] else []) + MatchingIds(products[1..], normalized)
  }

  /** `.maybeSingle()` on that query: the product's id when exactly one
      product matches, and no product when none does or when two or more do
      (the reply is then an error). */
  function LookupProduct(products: seq<Product>, normalized: string): Option<Id> {
    var ids := MatchingIds(products, normalized);
    if |ids| == 1 then Some(ids[0]) else None
  }

  /** The query returns one id per matching product. */
  lemma {:induction false} MatchingIdsSpec(products: seq<Product>, normalized: string)
    ensures var ids := MatchingIds(products, normalized);
      && (ids == [] <==> forall i :: 0 <= i < |products| ==> !NameMatches(products[i], normalized))
      && (|ids| == 1 ==> exists i :: (0 <= i < |products| && NameMatches(products[i], normalized)
            && products[i].id == ids[0]
            && forall j :: 0 <= j < |products| && j != i ==> !NameMatches(products[j], normalized)))
      && (|ids| >= 2 ==> exists i, j :: 0 <= i < j < |products| && NameMatches(products[i], normalized) && NameMatches(products[j], normalized))
    decreases |products|
  {
    if products != [] {
      var rest := products[1..];
      MatchingIdsSpec(rest, normalized);
      var ids := MatchingIds(products, normalized);
      var tail := MatchingIds(rest, normalized);
      assert forall i :: 0 < i < |products| ==> products[i] == rest[i - 1];
      if |ids| == 1 {
        if NameMatches(products[0], normalized) {
          assert tail == [];
          assert forall j :: 0 < j < |products| ==> !NameMatches(products[j], normalized);
        } else {
          var i :| 0 <= i < |rest| && NameMatches(rest[i], normalized) && rest[i].id == tail[0]
            && forall j :: 0 <= j < |rest| && j != i ==> !NameMatches(rest[j], normalized);
          assert products[i + 1] == rest[i];
        }
      }
      if |ids| >= 2 {
        if NameMatches(products[0], normalized) {
          assert tail != [];
          var j :| 0 <= j < |rest| && NameMatches(rest[j], normalized);
          assert products[j + 1] == rest[j];
        } else {
          var i, j :| 0 <= i < j < |rest| && NameMatches(rest[i], normalized) && NameMatches(rest[j], normalized);
          assert products[i + 1] == rest[i] && products[j + 1] == rest[j];
        }
      }
    }
  }

  /** A product is found exactly when one product matches, and it is that
      product; otherwise none matches or two do. */
  lemma LookupProductSpec(products: seq<Product>, normalized: string)
    ensures var r := LookupProduct(products, normalized);
      && (r.Some? ==> exists i :: (0 <= i < |products| && NameMatches(products[i], normalized)
            && products[i].id == r.value
            && forall j :: 0 <= j < |products| && j != i ==> !NameMatches(products[j], normalized)))
      && (r.None? ==>
            (forall p :: p in products ==> !NameMatches(p, normalized))
            || exists i, j :: 0 <= i < j < |products| && NameMatches(products[i], normalized) && NameMatches(products[j], normalized))
  {
    MatchingIdsSpec(products, normalized);
  }

  // -----------------------------------------------------------------------
  // handleSave

  /** Why the walk over the rows stopped: a check of the row, or a failed
      insert. */
  datatype ItemsReason = MissingName | MissingProject | CreateFailed | ItemFailed

  /** Where the save ended: at the row with that index, or after all rows
      (`onDone` is called only then). */
  datatype ItemsOutcome = Stopped(row: nat, reason: ItemsReason) | AllSaved

  /** The checks of one row. */
  predicate RowValid(r: ItemRow) {
    !IsBlank(r.name) && r.projectId.Some?
  }

  /** The item written for a row that names a project. */
  function ItemOf(r: ItemRow, invoiceId: Id, productId: Id): InvoiceItem
    requires r.projectId.Some?
  {
    InvoiceItem(invoiceId, productId, r.projectId.value, AsNumber(r.qty), AsNumber(r.unitPrice))
  }

  /** The item written for a row: the invoice, the row's project and its
      amounts with blanks as 0. */
  predicate WrittenFor(item: InvoiceItem, r: ItemRow, invoiceId: Id) {
    r.projectId.Some? && item == ItemOf(r, invoiceId, item.productId)
  }

  /** Some product carries the id and matches the key. */
  predicate ProductOf(products: seq<Product>, id: Id, key: string) {
    exists p :: p in products && p.id == id && NameMatches(p, key)
  }

  /** The product at index `k` was created for one of the first `n` rows: a
      valid row whose product insert the service accepts, whose key had no
      single match among the products before it, and whose trimmed name and
      key the product carries. */
  predicate CreatedFor(products: seq<Product>, k: nat, rows: seq<ItemRow>, createFails: set<nat>, n: nat) {
    k < |products| &&
    exists j :: 0 <= j < n && j < |rows| && j !in createFails && RowValid(rows[j])
      && products[k].name == Trim(rows[j].name)
      && products[k].normalizedName == Some(NormalizeName(rows[j].name))
      && LookupProduct(products[..k], NormalizeName(rows[j].name)).None?
  }

  /** Every product from index `lo` on was created for one of the first `n`
      rows. */
  predicate AddedFor(products: seq<Product>, lo: nat, rows: seq<ItemRow>, createFails: set<nat>, n: nat) {
    forall k :: lo <= k < |products| ==> CreatedFor(products, k, rows, createFails, n)
  }

  /** The first `n` rows are valid, their item insert accepted, and `out`
      holds one item for each, in order, written for it with a product of
      `products` that matches the row's key. */
  predicate WrittenRows(rows: seq<ItemRow>, invoiceId: Id, itemFails: set<nat>, out: seq<InvoiceItem>,
                        products: seq<Product>, n: nat) {
    && n <= |rows| && |out| == n
    && forall j :: 0 <= j < n ==>
         && RowValid(rows[j]) && j !in itemFails && WrittenFor(out[j], rows[j], invoiceId)
         && ProductOf(products, out[j].productId, NormalizeName(rows[j].name))
  }

  /** Where a walk ends: the row it stopped at, or past the last row. */
  function StopIndex(rows: seq<ItemRow>, o: ItemsOutcome): nat {
    if o.Stopped? then o.row else |rows|
  }

  /** How many rows the walk reached: the written ones and the one it
      stopped at. */
  function Reached(rows: seq<ItemRow>, o: ItemsOutcome): nat {
    if o.Stopped? then o.row + 1 else |rows|
  }

  /** The product step of `handleSave` for a row with the given name and
      key: the lookup by key, then, when it finds no single product, the
      insert of a product with the trimmed name and the key (`createOk` is
      the service's reply). `ok` is false exactly when that insert is
      refused; otherwise `productId` is the id of a product that matches
      the key. A single match is reused and nothing is written; only the
      products and the next identifier change. */
  method ProductFor(db: Db, name: string, key: string, createOk: bool)
    returns (ok: bool, db': Db, productId: Id)
    ensures ok <==> LookupProduct(db.products, key).Some? || createOk
    ensures db'.products ==
      if LookupProduct(db.products, key).None? && createOk
      then db.products + [Product(db.nextId, Trim(name), Some(key))]
      else db.products
    ensures db'.nextId == if LookupProduct(db.products, key).None? && createOk then db.nextId + 1 else db.nextId
    ensures LookupProduct(db.products, key).Some? ==> productId == LookupProduct(db.products, key).value
    ensures LookupProduct(db.products, key).None? && ok ==> productId == db.nextId
    ensures ok ==> ProductOf(db'.products, productId, key)
    ensures db'.suppliers == db.suppliers && db'.projects == db.projects
    ensures db'.invoices == db.invoices && db'.invoiceItems == db.invoiceItems
  {
    var found := LookupProduct(db.products, key);
    LookupProductSpec(db.products, key);
    if found.Some? {
      var k :| 0 <= k < |db.products| && NameMatches(db.products[k], key) && db.products[k].id == found.value;
      assert db.products[k] in db.products;
      return true, db, found.value;
    }
    if !createOk {
      return false, db, 1;
    }
    var created := InsertProduct(db, Trim(name), Some(key));
    db', productId := created.0, created.1.id;
    assert created.1 in db'.products && NameMatches(created.1, key);
    ok := true;
  }

  /** What `handleSave` does with the rows, in order, each checked and then
      written, returning at the first check or insert that fails;
      `createFails` and `itemFails` are the rows whose product or item
      insert the service refuses, and `done` says whether `onDone` is
      called.
      - The rows before the stop are valid, their item insert accepted, and
        each is written as one item, in order, for a product that matches
        the row's key; no later row is written.
      - The walk stops at a blank name, a missing project, a refused product
        insert that was needed (no single product matched the key) or a
        refused item insert.
      - Each product added was created for one reached row, at most one per
        row, and only when no single product matched that row's key. */
  ghost predicate SaveWalk(rows: seq<ItemRow>, invoiceId: Id, db: Db, createFails: set<nat>, itemFails: set<nat>,
                           outcome: ItemsOutcome, db': Db, done: bool)
  {
    && (done <==> outcome == AllSaved)
    && (outcome.Stopped? ==> outcome.row < |rows|)
    && db.invoiceItems <= db'.invoiceItems
    && WrittenRows(rows, invoiceId, itemFails, db'.invoiceItems[|db.invoiceItems|..], db'.products, StopIndex(rows, outcome))
    && (outcome.Stopped? ==> (outcome.reason == MissingName <==> IsBlank(rows[outcome.row].name)))
    && (outcome.Stopped? ==> (outcome.reason == MissingProject <==>
          !IsBlank(rows[outcome.row].name) && rows[outcome.row].projectId.None?))
    && (outcome.Stopped? && outcome.reason == CreateFailed ==>
          RowValid(rows[outcome.row]) && outcome.row in createFails
          && LookupProduct(db'.products, NormalizeName(rows[outcome.row].name)).None?)
    && (outcome.Stopped? && outcome.reason == ItemFailed ==>
          RowValid(rows[outcome.row]) && outcome.row in itemFails)
    && db.products <= db'.products && |db'.products| <= |db.products| + Reached(rows, outcome)
    && AddedFor(db'.products, |db.products|, rows, createFails, Reached(rows, outcome))
    && db'.suppliers == db.suppliers && db'.projects == db.projects && db'.invoices == db.invoices
  }

  /** A longer product list still holds every product of a shorter one. */
  lemma ProductOfGrows(ps: seq<Product>, ps1: seq<Product>, id: Id, key: string)
    requires ps <= ps1 && ProductOf(ps, id, key)
    ensures ProductOf(ps1, id, key)
  {
    var p :| p in ps && p.id == id && NameMatches(p, key);
    var k :| 0 <= k < |ps| && ps[k] == p;
    assert ps1[k] == p;
  }

  /** The product step of row `i` keeps every added product accounted
      for, now among the first `i + 1` rows. */
  lemma {:induction false} CreatedStep(rows: seq<ItemRow>, createFails: set<nat>, i: nat, lo: nat,
                                       ps: seq<Product>, ps1: seq<Product>, nextId: Id)
    requires i < |rows|
    requires AddedFor(ps, lo, rows, createFails, i)
    requires ps1 ==
      if RowValid(rows[i]) && LookupProduct(ps, NormalizeName(rows[i].name)).None? && i !in createFails
      then ps + [Product(nextId, Trim(rows[i].name), Some(NormalizeName(rows[i].name)))]
      else ps
    ensures ps <= ps1 && |ps1| <= |ps| + 1
    ensures AddedFor(ps1, lo, rows, createFails, i + 1)
  {
    var n := i + 1;
    forall k | lo <= k < |ps1| ensures CreatedFor(ps1, k, rows, createFails, n) {
      if k < |ps| {
        assert CreatedFor(ps, k, rows, createFails, i);
        var j :| 0 <= j < i && j < |rows| && j !in createFails && RowValid(rows[j])
          && ps[k].name == Trim(rows[j].name)
          && ps[k].normalizedName == Some(NormalizeName(rows[j].name))
          && LookupProduct(ps[..k], NormalizeName(rows[j].name)).None?;
        assert ps1[..k] == ps[..k] && ps1[k] == ps[k];
      } else {
        assert ps1[..k] == ps;
        assert 0 <= i < i + 1;
      }
    }
  }

  /** Growing the products keeps the written rows' products. */
  lemma WrittenGrows(rows: seq<ItemRow>, invoiceId: Id, itemFails: set<nat>, out: seq<InvoiceItem>,
                     ps: seq<Product>, ps1: seq<Product>, n: nat)
    requires WrittenRows(rows, invoiceId, itemFails, out, ps, n) && ps <= ps1
    ensures WrittenRows(rows, invoiceId, itemFails, out, ps1, n)
  {
    forall j | 0 <= j < n ensures ProductOf(ps1, out[j].productId, NormalizeName(rows[j].name)) {
      ProductOfGrows(ps, ps1, out[j].productId, NormalizeName(rows[j].name));
    }
  }

  /** Writing row `n` extends the written rows by one. */
  lemma WrittenStep(rows: seq<ItemRow>, invoiceId: Id, itemFails: set<nat>, out: seq<InvoiceItem>,
                    ps: seq<Product>, ps1: seq<Product>, n: nat, item: InvoiceItem)
    requires WrittenRows(rows, invoiceId, itemFails, out, ps, n) && ps <= ps1 && n < |rows|
    requires RowValid(rows[n]) && n !in itemFails && WrittenFor(item, rows[n], invoiceId)
    requires ProductOf(ps1, item.productId, NormalizeName(rows[n].name))
    ensures WrittenRows(rows, invoiceId, itemFails, out + [item], ps1, n + 1)
  {
    WrittenGrows(rows, invoiceId, itemFails, out, ps, ps1, n);
  }

  /** The walk that wrote one item per row before `i` and stops at row `i`
      for `reason` ends as `SaveWalk` says. */
  lemma WalkStoppedAt(rows: seq<ItemRow>, invoiceId: Id, db: Db, createFails: set<nat>, itemFails: set<nat>,
                      out: seq<InvoiceItem>, db': Db, i: nat, reason: ItemsReason)
    requires i < |rows| && db'.invoiceItems == db.invoiceItems + out
    requires WrittenRows(rows, invoiceId, itemFails, out, db'.products, i)
    requires db.products <= db'.products && |db'.products| <= |db.products| + i + 1
    requires AddedFor(db'.products, |db.products|, rows, createFails, i + 1)
    requires db'.suppliers == db.suppliers && db'.projects == db.projects && db'.invoices == db.invoices
    requires reason == MissingName <==> IsBlank(rows[i].name)
    requires reason == MissingProject <==> !IsBlank(rows[i].name) && rows[i].projectId.None?
    requires reason == CreateFailed ==>
      RowValid(rows[i]) && i in createFails && LookupProduct(db'.products, NormalizeName(rows[i].name)).None?
    requires reason == ItemFailed ==> RowValid(rows[i]) && i in itemFails
    ensures SaveWalk(rows, invoiceId, db, createFails, itemFails, Stopped(i, reason), db', false)
  {
    assert db'.invoiceItems[|db.invoiceItems|..] == out;
  }

  /** The walk that wrote one item per row ends as `SaveWalk` says. */
  lemma WalkCompleted(rows: seq<ItemRow>, invoiceId: Id, db: Db, createFails: set<nat>, itemFails: set<nat>,
                      out: seq<InvoiceItem>, db': Db)
    requires db'.invoiceItems == db.invoiceItems + out
    requires WrittenRows(rows, invoiceId, itemFails, out, db'.products, |rows|)
    requires db.products <= db'.products && |db'.products| <= |db.products| + |rows|
    requires AddedFor(db'.products, |db.products|, rows, createFails, |rows|)
    requires db'.suppliers == db.suppliers && db'.projects == db.projects && db'.invoices == db.invoices
    ensures SaveWalk(rows, invoiceId, db, createFails, itemFails, AllSaved, db', true)
  {
    assert db'.invoiceItems[|db.invoiceItems|..] == out;
  }

  /** One pass of the loop of `handleSave` as a value: the row's checks in
      order, the lookup by key, the product insert when no single product
      matches, then the item insert. The result is the reason the pass
      stops, if any, and the database after it. */
  function RowStep(it: ItemRow, invoiceId: Id, db: Db, createOk: bool, itemOk: bool): (Option<ItemsReason>, Db) {
    if IsBlank(it.name) then (Some(MissingName), db)
    else if it.projectId.None? then (Some(MissingProject), db)
    else
      var key := NormalizeName(it.name);
      var found := LookupProduct(db.products, key);
      if found.None? && !createOk then (Some(CreateFailed), db)
      else
        var created := InsertProduct(db, Trim(it.name), Some(key));
        var db1 := if found.Some? then db else created.0;
        var productId := if found.Some? then found.value else created.1.id;
        if !itemOk then (Some(ItemFailed), db1)
        else (None, InsertInvoiceItem(db1, ItemOf(it, invoiceId, productId)))
  }

  /** The walk of `handleSave` from row `i` on, as a value: each row's pass
      in turn, ending at the first pass that stops, or with `AllSaved` after
      the last row. Row `j`'s product insert is refused iff `j` is in
      `createFails`, its item insert iff `j` is in `itemFails`. */
  function SaveSpec(rows: seq<ItemRow>, i: nat, invoiceId: Id, db: Db, createFails: set<nat>, itemFails: set<nat>)
    : (ItemsOutcome, Db)
    requires i <= |rows|
    decreases |rows| - i
  {
    if i == |rows| then (AllSaved, db)
    else
      var step := RowStep(rows[i], invoiceId, db, i !in createFails, i !in itemFails);
      if step.0.Some? then (Stopped(i, step.0.value), step.1)
      else SaveSpec(rows, i + 1, invoiceId, step.1, createFails, itemFails)
  }

  /** A pass that stops ends the walk there. */
  lemma SaveSpecStops(rows: seq<ItemRow>, i: nat, invoiceId: Id, db: Db, createFails: set<nat>, itemFails: set<nat>,
                      createOk: bool, itemOk: bool, reason: ItemsReason, db1: Db)
    requires i < |rows| && createOk == (i !in createFails) && itemOk == (i !in itemFails)
    requires RowStep(rows[i], invoiceId, db, createOk, itemOk) == (Some(reason), db1)
    ensures SaveSpec(rows, i, invoiceId, db, createFails, itemFails) == (Stopped(i, reason), db1)
  {
  }

  /** A pass that writes its item hands the walk on to the next row. */
  lemma SaveSpecContinues(rows: seq<ItemRow>, i: nat, invoiceId: Id, db: Db, createFails: set<nat>, itemFails: set<nat>,
                          createOk: bool, itemOk: bool, db1: Db)
    requires i < |rows| && createOk == (i !in createFails) && itemOk == (i !in itemFails)
    requires RowStep(rows[i], invoiceId, db, createOk, itemOk) == (None, db1)
    ensures SaveSpec(rows, i, invoiceId, db, createFails, itemFails) == SaveSpec(rows, i + 1, invoiceId, db1, createFails, itemFails)
  {
  }

  /** One pass of the loop of `handleSave`: the row's checks, its product,
      then its item (`createOk` and `itemOk` are the service's replies).
      Either the row is valid and exactly one item, written for it with a
      product that matches its key, is appended, or the pass stops for the
      first reason that applies and appends no item. A product is created
      exactly when the row is valid, no single product matches its key and
      the insert is accepted. */
  method SaveRow(it: ItemRow, invoiceId: Id, db: Db, createOk: bool, itemOk: bool)
    returns (stop: Option<ItemsReason>, db': Db, item: InvoiceItem)
    ensures (stop, db') == RowStep(it, invoiceId, db, createOk, itemOk)
    ensures stop.None? ==> RowValid(it) && db'.invoiceItems == db.invoiceItems + [item] && WrittenFor(item, it, invoiceId)
    ensures stop.None? ==> ProductOf(db'.products, item.productId, NormalizeName(it.name))
    ensures stop.Some? ==> db'.invoiceItems == db.invoiceItems
    ensures stop == Some(MissingName) <==> IsBlank(it.name)
    ensures stop == Some(MissingProject) <==> !IsBlank(it.name) && it.projectId.None?
    ensures stop == Some(CreateFailed) <==>
      RowValid(it) && LookupProduct(db.products, NormalizeName(it.name)).None? && !createOk
    ensures stop == Some(ItemFailed) <==>
      RowValid(it) && (LookupProduct(db.products, NormalizeName(it.name)).Some? || createOk) && !itemOk
    ensures db'.products ==
      if RowValid(it) && LookupProduct(db.products, NormalizeName(it.name)).None? && createOk
      then db.products + [Product(db.nextId, Trim(it.name), Some(NormalizeName(it.name)))]
      else db.products
    ensures db'.suppliers == db.suppliers && db'.projects == db.projects && db'.invoices == db.invoices
  {
    item := InvoiceItem(invoiceId, 1, 1, 0.0, 0.0);
    if IsBlank(it.name) {
      return Some(MissingName), db, item;
    }
    if it.projectId.None? {
      return Some(MissingProject), db, item;
    }
    var key := NormalizeName(it.name);
    var ok, db1, productId := ProductFor(db, it.name, key, createOk);
    if !ok {
      return Some(CreateFailed), db1, item;
    }
    if !itemOk {
      return Some(ItemFailed), db1, item;
    }
    item := ItemOf(it, invoiceId, productId);
    return None, InsertInvoiceItem(db1, item), item;
  }

  /** The loop of `handleSave`. */
  method SaveRows(rows: seq<ItemRow>, invoiceId: Id, db: Db, createFails: set<nat>, itemFails: set<nat>)
    returns (outcome: ItemsOutcome, db': Db, done: bool)
    ensures (outcome, db') == SaveSpec(rows, 0, invoiceId, db, createFails, itemFails)
    ensures SaveWalk(rows, invoiceId, db, createFails, itemFails, outcome, db', done)
  {
    db' := db;
    ghost var out: seq<InvoiceItem> := [];
    var i := 0;
    while i < |rows|
      invariant 0 <= i <= |rows|
      invariant db'.invoiceItems == db.invoiceItems + out
      invariant WrittenRows(rows, invoiceId, itemFails, out, db'.products, i)
      invariant db.products <= db'.products && |db'.products| <= |db.products| + i
      invariant AddedFor(db'.products, |db.products|, rows, createFails, i)
      invariant db'.suppliers == db.suppliers && db'.projects == db.projects && db'.invoices == db.invoices
      invariant SaveSpec(rows, i, invoiceId, db', createFails, itemFails) == SaveSpec(rows, 0, invoiceId, db, createFails, itemFails)
    {
      var createOk, itemOk := i !in createFails, i !in itemFails;
      var stop, db1, item := SaveRow(rows[i], invoiceId, db', createOk, itemOk);
      CreatedStep(rows, createFails, i, |db.products|, db'.products, db1.products, db'.nextId);
      if stop.Some? {
        SaveSpecStops(rows, i, invoiceId, db', createFails, itemFails, createOk, itemOk, stop.value, db1);
        WrittenGrows(rows, invoiceId, itemFails, out, db'.products, db1.products, i);
        WalkStoppedAt(rows, invoiceId, db, createFails, itemFails, out, db1, i, stop.value);
        return Stopped(i, stop.value), db1, false;
      }
      SaveSpecContinues(rows, i, invoiceId, db', createFails, itemFails, createOk, itemOk, db1);
      WrittenStep(rows, invoiceId, itemFails, out, db'.products, db1.products, i, item);
      db' := db1;
      assert db.invoiceItems + out + [item] == db.invoiceItems + (out + [item]);
      out := out + [item];
      i := i + 1;
    }
    WalkCompleted(rows, invoiceId, db, createFails, itemFails, out, db');
    return AllSaved, db', true;
  }

  // -----------------------------------------------------------------------
  // The form

  class ItemsForm {
    var projects: seq<Project>
    var items: seq<ItemRow>
    var nextKey: RowId

    /** The row keys never collide. */
    predicate Valid()
      reads this
    {
      ItemKeysFresh(items, nextKey)
    }

    /** The form starts with one blank row. */
    constructor()
      ensures Valid()
      ensures projects == [] && items == [BlankItemRow(0)] && nextKey == 1
    {
      projects, items, nextKey := [], [BlankItemRow(0)], 1;
    }

    /** The project query on mount: `data || []`, so a failed query leaves no
        projects to choose. */
    method LoadProjects(reply: Option<seq<Project>>)
      modifies this
      ensures projects == reply.GetOr([])
      ensures items == old(items) && nextKey == old(nextKey)
    {
      projects := reply.GetOr([]);
    }

    /** `addRow`: a blank row with a key no row carries. */
    method AddRow()
      requires Valid()
      modifies this
      ensures Valid()
      ensures forall x :: x in old(items) ==> x.id != old(nextKey)
      ensures items == AddItemRow(old(items), old(nextKey)) && nextKey == old(nextKey) + 1
      ensures projects == old(projects)
    {
      AddItemRowKeepsKeysFresh(items, nextKey);
      items := AddItemRow(items, nextKey);
      nextKey := nextKey + 1;
    }

    method RemoveRow(id: RowId)
      requires Valid()
      modifies this
      ensures Valid()
      ensures items == RemoveItemRow(old(items), id)
      ensures projects == old(projects) && nextKey == old(nextKey)
    {
      RemoveItemRowKeepsKeysFresh(items, id, nextKey);
      items := RemoveItemRow(items, id);
    }

    method UpdateItem(id: RowId, f: Field)
      requires Valid()
      modifies this
      ensures Valid()
      ensures items == UpdateItemField(old(items), id, f)
      ensures projects == old(projects) && nextKey == old(nextKey)
    {
      UpdateItemFieldKeepsKeysFresh(items, id, f, nextKey);
      items := UpdateItemField(items, id, f);
    }

    /** `handleSave` on the rows the form holds: see `SaveRows`. The form
        itself is not changed. */
    method HandleSave(invoiceId: Id, db: Db, createFails: set<nat>, itemFails: set<nat>)
      returns (outcome: ItemsOutcome, db': Db, done: bool)
      ensures (outcome, db') == SaveSpec(items, 0, invoiceId, db, createFails, itemFails)
      ensures SaveWalk(items, invoiceId, db, createFails, itemFails, outcome, db', done)
    {
      outcome, db', done := SaveRows(items, invoiceId, db, createFails, itemFails);
    }
  }
}
