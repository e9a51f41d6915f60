/** The "new invoice" form: header fields, the supplier picker, the line-item
    rows, and the save action that validates, asks for confirmation where
    needed and inserts the invoice. */
module DataEntryInvoices {
  import opened Common
  import opened Text
  import opened Store
  import opened InvoiceRows
  import opened Picker

  /** What the save action reads from the form. */
  datatype Form = Form(
    number: string,
    supplierName: string,
    supplierId: Option<Id>,
    date: string,
    totalCost: Amount,
    items: seq<Row>)

  /** The answers to the two confirmation prompts and the database's reply to
      the insert. */
  datatype Answers = Answers(confirmDuplicate: bool, confirmMismatch: bool, writeOk: bool)

  /** The three checks made before the database is consulted. */
  function HeaderError(f: Form): Option<Reason> {
    if IsBlank(f.number) then Some(MissingNumber)
    else if IsBlank(f.supplierName) then Some(MissingSupplier)
    else if f.totalCost.Blank? then Some(MissingTotal)
    else None
  }

  /** Some stored invoice already carries the trimmed number. */
  predicate Duplicate(f: Form, db: Db) {
    HasNumber(db.invoices, Trim(f.number))
  }

  /** The inserted columns: trimmed number and supplier text, the bound
      supplier id, and the rows with blank amounts written as 0. */
  function Payload(f: Form): InvoiceFields {
    InvoiceFields(Trim(f.number), Some(Trim(f.supplierName)), f.supplierId, f.date,
                  AsNumber(f.totalCost), PrepareItems(f.items))
  }

  /** The checks and prompts of `saveInvoice`, in order: the header checks,
      the duplicate-number prompt, the row checks, the total-mismatch
      prompt. */
  function SaveGate(f: Form, db: Db, a: Answers): Gate {
    match HeaderError(f)
    case Some(reason) => Gate(Some(Rejected(reason)), [])
    case None =>
      var dup := Duplicate(f, db);
      var p1 := if dup then [DuplicateNumber] else [];
      if dup && !a.confirmDuplicate then Gate(Some(Declined), p1)
      else
        match ItemsError(f.items)
        case Some(reason) => Gate(Some(Rejected(reason)), p1)
        case None =>
          var mismatch := Mismatch(f.items, AsNumber(f.totalCost));
          var p2 := p1 + if mismatch then [TotalMismatch] else [];
          if mismatch && !a.confirmMismatch then Gate(Some(Declined), p2)
          else Gate(None, p2)
  }

  /** `saveInvoice`: the gate, then the insert. */
  function SaveInvoiceResult(f: Form, createdBy: string, db: Db, a: Answers): SaveResult {
    var g := SaveGate(f, db, a);
    if g.stop.Some? then SaveResult(g.stop.value, g.prompts, db)
    else if !a.writeOk then SaveResult(WriteFailed, g.prompts, db)
    else SaveResult(Saved, g.prompts, InsertInvoice(db, Payload(f), createdBy))
  }

  /** The checks as the handler runs them: early returns, the validation
      loop over the rows and the running sum. */
  method RunChecks(f: Form, db: Db, a: Answers) returns (g: Gate)
    ensures g == SaveGate(f, db, a)
  {
    if IsBlank(f.number) {
      return Gate(Some(Rejected(MissingNumber)), []);
    }
    if IsBlank(f.supplierName) {
      return Gate(Some(Rejected(MissingSupplier)), []);
    }
    if f.totalCost.Blank? {
      return Gate(Some(Rejected(MissingTotal)), []);
    }
    var prompts := [];
    if HasNumber(db.invoices, Trim(f.number)) {
      prompts := [DuplicateNumber];
      if !a.confirmDuplicate {
        return Gate(Some(Declined), prompts);
      }
    }
    var rowError := CheckRows(f.items);
    if rowError.Some? {
      return Gate(Some(Rejected(rowError.value)), prompts);
    }
    var sum := SumRows(f.items);
    if Abs(sum - AsNumber(f.totalCost)) > 0.01 {
      prompts := prompts + [TotalMismatch];
      if !a.confirmMismatch {
        return Gate(Some(Declined), prompts);
      }
    }
    return Gate(None, prompts);
  }

  /** The handler's body on the form's values: the checks, then the insert. */
  method Save(f: Form, createdBy: string, db: Db, a: Answers) returns (r: SaveResult)
    ensures r == SaveInvoiceResult(f, createdBy, db, a)
  {
    var g := RunChecks(f, db, a);
    if g.stop.Some? {
      return SaveResult(g.stop.value, g.prompts, db);
    }
    if !a.writeOk {
      return SaveResult(WriteFailed, g.prompts, db);
    }
    return SaveResult(Saved, g.prompts, InsertInvoice(db, Payload(f), createdBy));
  }

  /** A save succeeds exactly when every check passes, every prompt raised is
      accepted and the insert goes through; only then is the database
      changed, and then by inserting the payload. */
  lemma SaveInvoiceSucceedsIff(f: Form, createdBy: string, db: Db, a: Answers)
    ensures var r := SaveInvoiceResult(f, createdBy, db, a);
      && (r.outcome == Saved <==>
           && HeaderError(f).None? && ItemsError(f.items).None?
           && (Duplicate(f, db) ==> a.confirmDuplicate)
           && (Mismatch(f.items, AsNumber(f.totalCost)) ==> a.confirmMismatch)
           && a.writeOk)
      && (r.outcome == Saved ==> r.db == InsertInvoice(db, Payload(f), createdBy))
      && (r.outcome != Saved ==> r.db == db)
  {
  }

  /** The duplicate-number prompt is raised exactly when the header is valid
      and the trimmed number is taken; the mismatch prompt exactly when, on
      top of that gate, the rows are valid and off by more than a cent. */
  lemma SaveInvoicePrompts(f: Form, createdBy: string, db: Db, a: Answers)
    ensures var r := SaveInvoiceResult(f, createdBy, db, a);
      && (DuplicateNumber in r.prompts <==> HeaderError(f).None? && Duplicate(f, db))
      && (TotalMismatch in r.prompts <==>
           && HeaderError(f).None? && (Duplicate(f, db) ==> a.confirmDuplicate)
           && ItemsError(f.items).None? && Mismatch(f.items, AsNumber(f.totalCost)))
  {
  }

  /** A save is rejected by the header checks before anything is asked, or
      by the row checks once the duplicate prompt is passed; the reason is
      the first failed check. */
  lemma SaveInvoiceRejections(f: Form, createdBy: string, db: Db, a: Answers)
    ensures var r := SaveInvoiceResult(f, createdBy, db, a);
      && (r.outcome.Rejected? <==>
           HeaderError(f).Some? || ((Duplicate(f, db) ==> a.confirmDuplicate) && ItemsError(f.items).Some?))
      && (HeaderError(f).Some? ==> r.outcome == Rejected(HeaderError(f).value) && r.prompts == [])
      && (HeaderError(f).None? && (Duplicate(f, db) ==> a.confirmDuplicate) && ItemsError(f.items).Some? ==>
           r.outcome == Rejected(ItemsError(f.items).value))
  {
  }

  /** The payload of a form that passed every check has a non-blank number
      and supplier, only named rows assigned to a project, and rows whose sum
      is the sum the reconciliation looked at. */
  lemma PayloadWellFormed(f: Form)
    requires HeaderError(f).None? && ItemsError(f.items).None?
    ensures Payload(f).number != [] && Payload(f).supplier.value != []
    ensures forall it :: it in Payload(f).items ==> !IsBlank(it.productName) && it.projectId.Some?
    ensures SumOf(Payload(f).items, StoredLineTotal) == RowsSum(f.items)
  {
    var items := PrepareItems(f.items);
    PreparedSum(f.items);
    PrepareItemsPointwise(f.items);
    ItemsErrorNoneIff(f.items);
    forall it | it in items ensures !IsBlank(it.productName) && it.projectId.Some? {
      var i :| 0 <= i < |items| && items[i] == it;
      assert RowError(f.items[i]).None?;
    }
  }

  /** A saved invoice is appended after the existing ones and is well formed:
      non-blank trimmed number and supplier, author recorded, every row named
      and assigned to a project, and its rows add up to the declared total
      unless the user accepted the difference. */
  lemma SavedInvoiceWellFormed(f: Form, createdBy: string, db: Db, a: Answers)
    requires SaveInvoiceResult(f, createdBy, db, a).outcome == Saved
    ensures var invs := SaveInvoiceResult(f, createdBy, db, a).db.invoices;
      |invs| == |db.invoices| + 1 && invs[..|db.invoices|] == db.invoices
    ensures var inv := SaveInvoiceResult(f, createdBy, db, a).db.invoices[|db.invoices|];
      && inv.id == db.nextId && inv.createdBy == Some(createdBy)
      && inv.number == Trim(f.number) && inv.number != []
      && inv.supplier == Some(Trim(f.supplierName)) && Trim(f.supplierName) != []
      && (forall it :: it in inv.items ==> !IsBlank(it.productName) && it.projectId.Some?)
      && (Abs(SumOf(inv.items, StoredLineTotal) - inv.totalCost.value) <= 0.01 || a.confirmMismatch)
      && (HasNumber(db.invoices, inv.number) ==> a.confirmDuplicate)
  {
    var r := SaveInvoiceResult(f, createdBy, db, a);
    SaveInvoiceSucceedsIff(f, createdBy, db, a);
    assert HeaderError(f).None? && ItemsError(f.items).None?;
    assert Mismatch(f.items, AsNumber(f.totalCost)) ==> a.confirmMismatch;
    assert Duplicate(f, db) ==> a.confirmDuplicate;
    var inv := NewInvoice(db.nextId, Payload(f), createdBy);
    assert r.db == InsertInvoice(db, Payload(f), createdBy);
    assert r.db.invoices == db.invoices + [inv];
    assert r.db.invoices[..|db.invoices|] == db.invoices;
    assert r.db.invoices[|db.invoices|] == inv;
    PayloadWellFormed(f);
  }

  /** The number check comes first: a blank number is reported whatever else
      is wrong with the form, and nothing is asked or written. */
  lemma BlankNumberRejectedFirst(f: Form, createdBy: string, db: Db, a: Answers)
    requires IsBlank(f.number)
    ensures SaveInvoiceResult(f, createdBy, db, a) == SaveResult(Rejected(MissingNumber), [], db)
  {
  }

  /** The row checks run only after the duplicate-number prompt: declining it
      ends the save even when a row is incomplete. */
  lemma DuplicatePromptPrecedesRowChecks(f: Form, createdBy: string, db: Db, a: Answers)
    requires HeaderError(f).None? && Duplicate(f, db) && !a.confirmDuplicate
    ensures SaveInvoiceResult(f, createdBy, db, a) == SaveResult(Declined, [DuplicateNumber], db)
  {
  }

  class DataEntryForm {
    var projects: seq<Project>
    var products: seq<Product>
    var suppliers: seq<Supplier>
    var number: string
    var supplierName: string
    var supplierId: Option<Id>
    var date: string
    var totalCost: Amount
    var items: seq<Row>
    var saving: bool
    /** The next row key to hand out. */
    var nextKey: RowId

    predicate Valid()
      reads this
    {
      KeysFresh(items, nextKey)
    }

    function Snapshot(): Form
      reads this
    {
      Form(number, supplierName, supplierId, date, totalCost, items)
    }

    /** A fresh form dated `today`, with one blank row. */
    constructor(today: string)
      ensures Valid() && !saving
      ensures projects == [] && products == [] && suppliers == []
      ensures Snapshot() == Form("", "", None, today, Blank, [BlankRow(0)]) && nextKey == 1
    {
      projects, products, suppliers := [], [], [];
      number, supplierName, supplierId, date, totalCost := "", "", None, today, Blank;
      items, saving, nextKey := [BlankRow(0)], false, 1;
    }

    /** The mount effect: active projects, all products and all suppliers.
        Each of the three reads may fail on its own (`proOk`, `prodOk`,
        `suppOk`); a failed read leaves its list empty and raises no alert. */
    method Load(db: Db, proOk: bool, prodOk: bool, suppOk: bool)
      modifies this
      ensures projects == if proOk then Filter(db.projects, (p: Project) => p.active) else []
      ensures products == (if prodOk then db.products else [])
      ensures suppliers == (if suppOk then db.suppliers else [])
      ensures Snapshot() == old(Snapshot()) && nextKey == old(nextKey) && saving == old(saving)
    {
      projects := if proOk then Filter(db.projects, (p: Project) => p.active) else [];
      products := if prodOk then db.products else [];
      suppliers := if suppOk then db.suppliers else [];
    }

    method AddRow()
      requires Valid()
      modifies this
      ensures Valid()
      ensures items == InvoiceRows.AddRow(old(items), old(nextKey)) && nextKey == old(nextKey) + 1
      ensures Snapshot() == old(Snapshot()).(items := items)
      ensures projects == old(projects) && products == old(products) && suppliers == old(suppliers) && saving == old(saving)
    {
      AddRowKeepsKeysFresh(items, nextKey);
      items := InvoiceRows.AddRow(items, nextKey);
      nextKey := nextKey + 1;
    }

    method RemoveRow(id: RowId)
      requires Valid()
      modifies this
      ensures Valid()
      ensures items == InvoiceRows.RemoveRow(old(items), id)
      ensures Snapshot() == old(Snapshot()).(items := items) && nextKey == old(nextKey)
      ensures projects == old(projects) && products == old(products) && suppliers == old(suppliers) && saving == old(saving)
    {
      RemoveRowKeepsKeysFresh(items, id, nextKey);
      items := InvoiceRows.RemoveRow(items, id);
    }

    method UpdateItem(id: RowId, p: Patch)
      requires Valid()
      modifies this
      ensures Valid()
      ensures items == InvoiceRows.UpdateItem(old(items), id, p)
      ensures Snapshot() == old(Snapshot()).(items := items) && nextKey == old(nextKey)
      ensures projects == old(projects) && products == old(products) && suppliers == old(suppliers) && saving == old(saving)
    {
      UpdateItemKeepsKeysFresh(items, id, p, nextKey);
      items := InvoiceRows.UpdateItem(items, id, p);
    }

    /** Typing in the supplier field unbinds any chosen supplier. */
    method TypeSupplier(text: string)
      modifies this
      ensures Snapshot() == old(Snapshot()).(supplierName := text, supplierId := None)
      ensures nextKey == old(nextKey) && saving == old(saving)
      ensures projects == old(projects) && products == old(products) && suppliers == old(suppliers)
    {
      supplierName, supplierId := text, None;
    }

    /** Clicking a suggestion binds both its name and its id. */
    method ChooseSupplier(s: Supplier)
      modifies this
      ensures Snapshot() == old(Snapshot()).(supplierName := s.name, supplierId := Some(s.id))
      ensures nextKey == old(nextKey) && saving == old(saving)
      ensures projects == old(projects) && products == old(products) && suppliers == old(suppliers)
    {
      supplierName, supplierId := s.name, Some(s.id);
    }

    /** "Add new product" for row `it`: inserts the trimmed name and binds the
        row to the new product; a blank name or a failed insert changes
        nothing. */
    method AddNewProduct(it: Row, db: Db, ok: bool) returns (db': Db)
      requires Valid()
      modifies this
      ensures Valid()
      ensures IsBlank(it.productName) || !ok ==>
        db' == db && Snapshot() == old(Snapshot()) && products == old(products)
      ensures !IsBlank(it.productName) && ok ==>
        && var (d, p) := InsertProduct(db, Trim(it.productName), None);
        && db' == d && products == old(products) + [p]
        && items == InvoiceRows.UpdateItem(old(items), it.id, Patch(Some(p.name), Some(Some(p.id)), None, None, None))
        && Snapshot() == old(Snapshot()).(items := items)
      ensures nextKey == old(nextKey) && saving == old(saving)
      ensures projects == old(projects) && suppliers == old(suppliers)
    {
      var name := Trim(it.productName);
      if name == [] || !ok {
        return db;
      }
      var p;
      db', p := InsertProduct(db, name, None).0, InsertProduct(db, name, None).1;
      products := products + [p];
      var patch := Patch(Some(p.name), Some(Some(p.id)), None, None, None);
      UpdateItemKeepsKeysFresh(items, it.id, patch, nextKey);
      items := InvoiceRows.UpdateItem(items, it.id, patch);
    }

    /** "Add new supplier": inserts the trimmed text and binds the new id; the
        typed text itself stays as it was. */
    method AddNewSupplier(db: Db, ok: bool) returns (db': Db)
      modifies this
      ensures IsBlank(old(supplierName)) || !ok ==>
        db' == db && Snapshot() == old(Snapshot()) && suppliers == old(suppliers)
      ensures !IsBlank(old(supplierName)) && ok ==>
        && var (d, s) := InsertSupplier(db, Trim(old(supplierName)));
        && db' == d && suppliers == old(suppliers) + [s]
        && Snapshot() == old(Snapshot()).(supplierId := Some(s.id))
      ensures nextKey == old(nextKey) && saving == old(saving)
      ensures projects == old(projects) && products == old(products)
    {
      var name := Trim(supplierName);
      if name == [] || !ok {
        return db;
      }
      var s;
      db', s := InsertSupplier(db, name).0, InsertSupplier(db, name).1;
      suppliers := suppliers + [s];
      supplierId := Some(s.id);
    }

    /** The form after a successful save: one blank row, the date kept. */
    method Reset()
      modifies this
      ensures Snapshot() == Form("", "", None, old(date), Blank, [BlankRow(old(nextKey))])
      ensures nextKey == old(nextKey) + 1 && saving == old(saving)
      ensures projects == old(projects) && products == old(products) && suppliers == old(suppliers)
    {
      number, supplierName, supplierId, totalCost := "", "", None, Blank;
      items := [BlankRow(nextKey)];
      nextKey := nextKey + 1;
    }

    /** `saveInvoice`. The outcome, the prompts and the database follow
        `SaveInvoiceResult`; on success the form is cleared to one blank row
        (the date is kept), otherwise it is left as it was. */
    method SaveInvoice(createdBy: string, db: Db, a: Answers) returns (outcome: Outcome<Reason>, prompts: seq<Prompt>, db': Db)
      requires Valid() && !saving
      modifies this
      ensures Valid() && !saving
      ensures SaveResult(outcome, prompts, db') == SaveInvoiceResult(old(Snapshot()), createdBy, db, a)
      ensures outcome == Saved ==>
        && Snapshot() == Form("", "", None, old(date), Blank, [BlankRow(old(nextKey))])
        && nextKey == old(nextKey) + 1
      ensures outcome != Saved ==> Snapshot() == old(Snapshot()) && nextKey == old(nextKey)
      ensures projects == old(projects) && products == old(products) && suppliers == old(suppliers)
    {
      var r := Save(Snapshot(), createdBy, db, a);
      outcome, prompts, db' := r.outcome, r.prompts, r.db;
      if outcome == Saved {
        Reset();
      }
    }
  }
}
