/** The invoice list: the stored invoices filtered by project, date and a
    search text, a details dialog, deletion, and an edit dialog that works on
    a draft copy of one invoice and writes it back with an update. */
module InvoicesList {
  import opened Common
  import opened Text
  import opened Store
  import opened InvoiceRows
  import opened Picker

  /** The edit dialog's copy of an invoice. */
  datatype Draft = Draft(
    id: Id,
    number: string,
    supplier: string,
    supplierId: Option<Id>,
    date: string,
    totalCost: Amount,
    items: seq<Row>)

  /** The answer to the total-mismatch prompt and the database's reply to the
      update. */
  datatype EditAnswers = EditAnswers(confirmMismatch: bool, writeOk: bool)

  // -----------------------------------------------------------------------
  // Looking names up

  /** `suppliers.find((s) => s.id === id)`. */
  function SupplierById(suppliers: seq<Supplier>, id: Option<Id>): Option<Supplier> {
    Find(suppliers, (s: Supplier) => Some(s.id) == id)
  }

  /** `inv.supplier || suppliers.find(...)?.name || ""`: the free-text
      supplier unless it is missing or empty, else the name of the supplier
      the id points at, else nothing. */
  function SupplierLabel(inv: Invoice, suppliers: seq<Supplier>): (shown: string)
    ensures inv.supplier.Some? && inv.supplier.value != "" ==> shown == inv.supplier.value
    ensures (inv.supplier.None? || inv.supplier.value == "") && shown != "" ==>
      exists s :: s in suppliers && Some(s.id) == inv.supplierId && s.name == shown
  {
    if inv.supplier.Some? && inv.supplier.value != "" then inv.supplier.value
    else match SupplierById(suppliers, inv.supplierId)
      case Some(s) => s.name
      case None => ""
  }

  /** `projects.find((p) => p.id === id)?.name`. */
  function ProjectName(projects: seq<Project>, id: Option<Id>): Option<string> {
    match Find(projects, (p: Project) => Some(p.id) == id)
    case Some(p) => Some(p.name)
    case None => None
  }

  // -----------------------------------------------------------------------
  // The filtered list

  /** The project test: no project chosen, or some item is assigned to a
      project of that name. */
  predicate ProjectTest(inv: Invoice, projects: seq<Project>, filterProject: string) {
    filterProject == "" || exists it :: it in inv.items && ProjectName(projects, it.projectId) == Some(filterProject)
  }

  /** The date test: no date chosen, or exactly that date. */
  predicate DateTest(inv: Invoice, filterDate: string) {
    filterDate == "" || inv.date == filterDate
  }

  /** The search test: no query, or the number or the supplier's name
      contains it, compared in lower case. */
  predicate SearchTest(inv: Invoice, suppliers: seq<Supplier>, search: string) {
    var query := Lower(search);
    query == "" || Contains(Lower(inv.number), query) || Contains(Lower(SupplierLabel(inv, suppliers)), query)
  }

  predicate Visible(inv: Invoice, suppliers: seq<Supplier>, projects: seq<Project>,
                    filterProject: string, filterDate: string, search: string) {
    ProjectTest(inv, projects, filterProject) && DateTest(inv, filterDate) && SearchTest(inv, suppliers, search)
  }

  /** `filtered`: the invoices the table shows. */
  function FilterInvoices(invoices: seq<Invoice>, suppliers: seq<Supplier>, projects: seq<Project>,
                          filterProject: string, filterDate: string, search: string): seq<Invoice> {
    Filter(invoices, (inv: Invoice) => Visible(inv, suppliers, projects, filterProject, filterDate, search))
  }

  /** An invoice is shown exactly when it passes all three tests, and the
      shown invoices keep the list's order. */
  lemma FilteredMembership(invoices: seq<Invoice>, suppliers: seq<Supplier>, projects: seq<Project>,
                           filterProject: string, filterDate: string, search: string)
    ensures forall inv :: inv in FilterInvoices(invoices, suppliers, projects, filterProject, filterDate, search) <==>
      && inv in invoices
      && ProjectTest(inv, projects, filterProject)
      && DateTest(inv, filterDate)
      && SearchTest(inv, suppliers, search)
    ensures IsSubsequence(FilterInvoices(invoices, suppliers, projects, filterProject, filterDate, search), invoices)
  {
    FilterIsSubsequence(invoices, (inv: Invoice) => Visible(inv, suppliers, projects, filterProject, filterDate, search));
  }

  /** With every filter empty the whole list is shown. */
  lemma NoFiltersShowAll(invoices: seq<Invoice>, suppliers: seq<Supplier>, projects: seq<Project>)
    ensures FilterInvoices(invoices, suppliers, projects, "", "", "") == invoices
  {
    FilterKeepsAll(invoices, (inv: Invoice) => Visible(inv, suppliers, projects, "", "", ""));
  }

  /** Typing more into the search box can only hide invoices. */
  lemma SearchNarrows(invoices: seq<Invoice>, suppliers: seq<Supplier>, projects: seq<Project>,
                      filterProject: string, filterDate: string, search: string, more: string)
    ensures forall inv :: inv in FilterInvoices(invoices, suppliers, projects, filterProject, filterDate, search + more) ==>
      inv in FilterInvoices(invoices, suppliers, projects, filterProject, filterDate, search)
  {
    LowerAppend(search, more);
    forall inv | SearchTest(inv, suppliers, search + more) ensures SearchTest(inv, suppliers, search) {
      var q := Lower(search);
      if q != "" {
        assert Lower(search + more) == q + Lower(more);
        if Contains(Lower(inv.number), q + Lower(more)) {
          ContainsShorter(Lower(inv.number), q, Lower(more));
        } else {
          ContainsShorter(Lower(SupplierLabel(inv, suppliers)), q, Lower(more));
        }
      }
    }
  }

  // -----------------------------------------------------------------------
  // The edit draft

  /** `startEdit`: the draft the dialog opens with. A missing total reads
      as 0, the supplier text falls back to the bound supplier's name, and
      the stored items are put back into editable rows. */
  function DraftOf(inv: Invoice, suppliers: seq<Supplier>): Draft {
    Draft(inv.id, inv.number, SupplierLabel(inv, suppliers), inv.supplierId, inv.date,
          Num(inv.totalCost.GetOr(0.0)), EditRows(inv.items))
  }

  /** The supplier an edit is saved with: the bound id, else the first
      supplier whose name equals the text in lower case, else none. */
  function ResolveSupplierId(d: Draft, suppliers: seq<Supplier>): (id: Option<Id>)
    ensures d.supplierId.Some? ==> id == d.supplierId
    ensures d.supplierId.None? ==>
      (id.Some? <==> exists s :: s in suppliers && Lower(s.name) == Lower(d.supplier))
    ensures d.supplierId.None? && id.Some? ==>
      exists k :: 0 <= k < |suppliers| && suppliers[k].id == id.value && Lower(suppliers[k].name) == Lower(d.supplier)
        && forall j :: 0 <= j < k ==> Lower(suppliers[j].name) != Lower(d.supplier)
  {
    var byName := Find(suppliers, (s: Supplier) => Lower(s.name) == Lower(d.supplier));
    var found := match byName case Some(s) => Some(s.id) case None => None;
    d.supplierId.OrElse(found)
  }

  /** The update's columns: trimmed number, the resolved supplier id, and the
      trimmed supplier text only when no id was resolved (none if it is
      blank); the rows with blank amounts written as 0. */
  function EditPayload(d: Draft, suppliers: seq<Supplier>): InvoiceFields {
    var id := ResolveSupplierId(d, suppliers);
    var text := Trim(d.supplier);
    InvoiceFields(Trim(d.number), if id.Some? || text == "" then None else Some(text), id,
                  d.date, AsNumber(d.totalCost), PrepareItems(d.items))
  }

  /** The payload never carries both a supplier text and a supplier id; the
      text is kept, trimmed, exactly when no id was resolved and it is not
      blank. */
  lemma EditPayloadSupplier(d: Draft, suppliers: seq<Supplier>)
    ensures var p := EditPayload(d, suppliers);
      && p.supplierId == ResolveSupplierId(d, suppliers)
      && !(p.supplier.Some? && p.supplierId.Some?)
      && (p.supplier.Some? <==> p.supplierId.None? && !IsBlank(d.supplier))
      && (p.supplier.Some? ==> p.supplier.value == Trim(d.supplier) && !IsSpace(p.supplier.value[0]))
  {
  }

  /** Opening an invoice for editing and saving it untouched writes back its
      items, date and total (a missing total as 0) and keeps a bound
      supplier, dropping the free text beside it. */
  lemma UneditedSaveKeepsInvoice(inv: Invoice, suppliers: seq<Supplier>)
    ensures var p := EditPayload(DraftOf(inv, suppliers), suppliers);
      && p.items == inv.items && p.date == inv.date && p.totalCost == inv.totalCost.GetOr(0.0)
      && (inv.supplierId.Some? ==> p.supplierId == inv.supplierId && p.supplier == None)
  {
    EditRowsRoundTrip(inv.items);
  }

  // -----------------------------------------------------------------------
  // handleSaveEdit

  /** The checks made before the rows: number, supplier (text or id), date. */
  function EditHeaderError(d: Draft): Option<Reason> {
    if IsBlank(d.number) then Some(MissingNumber)
    else if IsBlank(d.supplier) && d.supplierId.None? then Some(MissingSupplier)
    else if d.date == "" then Some(MissingDate)
    else None
  }

  /** The checks and the one prompt of `handleSaveEdit`, in order. */
  function SaveEditGate(d: Draft, a: EditAnswers): Gate {
    match EditHeaderError(d)
    case Some(reason) => Gate(Some(Rejected(reason)), [])
    case None =>
      match ItemsError(d.items)
      case Some(reason) => Gate(Some(Rejected(reason)), [])
      case None =>
        var mismatch := Mismatch(d.items, AsNumber(d.totalCost));
        var p := if mismatch then [TotalMismatch] else [];
        if mismatch && !a.confirmMismatch then Gate(Some(Declined), p)
        else Gate(None, p)
  }

  /** `handleSaveEdit` on a draft: the gate, then the update of the
      invoice with the draft's id. */
  function SaveEditResult(d: Draft, suppliers: seq<Supplier>, db: Db, a: EditAnswers): SaveResult {
    var g := SaveEditGate(d, a);
    if g.stop.Some? then SaveResult(g.stop.value, g.prompts, db)
    else if !a.writeOk then SaveResult(WriteFailed, g.prompts, db)
    else SaveResult(Saved, g.prompts, UpdateInvoice(db, d.id, EditPayload(d, suppliers)))
  }

  /** The checks as the handler runs them: early returns, the validation
      loop and the running sum. */
  method RunEditChecks(d: Draft, a: EditAnswers) returns (g: Gate)
    ensures g == SaveEditGate(d, a)
  {
    if IsBlank(d.number) {
      return Gate(Some(Rejected(MissingNumber)), []);
    }
    if IsBlank(d.supplier) && d.supplierId.None? {
      return Gate(Some(Rejected(MissingSupplier)), []);
    }
    if d.date == "" {
      return Gate(Some(Rejected(MissingDate)), []);
    }
    var rowError := CheckRows(d.items);
    if rowError.Some? {
      return Gate(Some(Rejected(rowError.value)), []);
    }
    var sum := SumRows(d.items);
    if Abs(sum - AsNumber(d.totalCost)) > 0.01 {
      if !a.confirmMismatch {
        return Gate(Some(Declined), [TotalMismatch]);
      }
      return Gate(None, [TotalMismatch]);
    }
    return Gate(None, []);
  }

  /** The handler's body on the draft's values: the checks, then the update. */
  method SaveEdit(d: Draft, suppliers: seq<Supplier>, db: Db, a: EditAnswers) returns (r: SaveResult)
    ensures r == SaveEditResult(d, suppliers, db, a)
  {
    var g := RunEditChecks(d, a);
    if g.stop.Some? {
      return SaveResult(g.stop.value, g.prompts, db);
    }
    if !a.writeOk {
      return SaveResult(WriteFailed, g.prompts, db);
    }
    return SaveResult(Saved, g.prompts, UpdateInvoice(db, d.id, EditPayload(d, suppliers)));
  }

  /** An edit is written exactly when every check passes, a mismatch is
      accepted and the update goes through; only then does the database
      change, and then by that update. */
  lemma SaveEditSucceedsIff(d: Draft, suppliers: seq<Supplier>, db: Db, a: EditAnswers)
    ensures var r := SaveEditResult(d, suppliers, db, a);
      && (r.outcome == Saved <==>
           && EditHeaderError(d).None? && ItemsError(d.items).None?
           && (Mismatch(d.items, AsNumber(d.totalCost)) ==> a.confirmMismatch)
           && a.writeOk)
      && (r.outcome == Saved ==> r.db == UpdateInvoice(db, d.id, EditPayload(d, suppliers)))
      && (r.outcome != Saved ==> r.db == db)
  {
  }

  /** The checks run in the order number, supplier, date, rows; the first
      that fails is reported and nothing is asked. The only prompt is the
      mismatch prompt, raised exactly when every check passes and the rows
      are off by more than a cent. */
  lemma SaveEditChecksInOrder(d: Draft, suppliers: seq<Supplier>, db: Db, a: EditAnswers)
    ensures var r := SaveEditResult(d, suppliers, db, a);
      && (r.outcome.Rejected? <==> EditHeaderError(d).Some? || ItemsError(d.items).Some?)
      && (EditHeaderError(d).Some? ==> r.outcome == Rejected(EditHeaderError(d).value))
      && (EditHeaderError(d).None? && ItemsError(d.items).Some? ==> r.outcome == Rejected(ItemsError(d.items).value))
      && (r.outcome.Rejected? ==> r.prompts == [])
      && (r.prompts == [TotalMismatch] <==>
           EditHeaderError(d).None? && ItemsError(d.items).None? && Mismatch(d.items, AsNumber(d.totalCost)))
      && (r.prompts == [] || r.prompts == [TotalMismatch])
  {
  }

  /** The fields of a draft that passed the checks, as the update writes
      them: a non-blank number, a supplier given by id or by non-blank text,
      only named rows assigned to a project, and rows whose sum is the one
      that was reconciled. */
  lemma EditPayloadWellFormed(d: Draft, suppliers: seq<Supplier>)
    requires EditHeaderError(d).None? && ItemsError(d.items).None?
    ensures var p := EditPayload(d, suppliers);
      && p.number != []
      && (p.supplierId.Some? || (p.supplier.Some? && p.supplier.value != []))
      && |p.items| == |d.items|
      && (forall i :: 0 <= i < |d.items| ==> p.items[i].id == d.items[i].id)
      && (forall it :: it in p.items ==> !IsBlank(it.productName) && it.projectId.Some?)
      && SumOf(p.items, StoredLineTotal) == RowsSum(d.items)
  {
    var items := PrepareItems(d.items);
    PreparedSum(d.items);
    PrepareItemsPointwise(d.items);
    ItemsErrorNoneIff(d.items);
    forall it | it in items ensures !IsBlank(it.productName) && it.projectId.Some? {
      var i :| 0 <= i < |items| && items[i] == it;
      assert RowError(d.items[i]).None?;
    }
  }

  /** A saved edit rewrites every stored invoice with the draft's id, keeping
      its id and author, and leaves every other invoice and the rest of the
      database as they were. */
  lemma SavedEditRewritesOnlyThatInvoice(d: Draft, suppliers: seq<Supplier>, db: Db, a: EditAnswers)
    requires SaveEditResult(d, suppliers, db, a).outcome == Saved
    ensures var db' := SaveEditResult(d, suppliers, db, a).db;
      && db'.products == db.products && db'.suppliers == db.suppliers && db'.nextId == db.nextId
      && |db'.invoices| == |db.invoices|
      && forall i :: 0 <= i < |db.invoices| ==>
           if db.invoices[i].id == d.id then
             && db'.invoices[i] == Overwrite(db.invoices[i], EditPayload(d, suppliers))
             && db'.invoices[i].createdBy == db.invoices[i].createdBy
           else db'.invoices[i] == db.invoices[i]
  {
    SaveEditSucceedsIff(d, suppliers, db, a);
  }

  // -----------------------------------------------------------------------
  // The page

  class InvoicesListPage {
    var invoices: seq<Invoice>
    var suppliers: seq<Supplier>
    var projects: seq<Project>
    var products: seq<Product>
    var filterProject: string
    var filterDate: string
    var search: string
    /** The invoice shown in the details dialog. */
    var selected: Option<Invoice>
    /** The draft shown in the edit dialog. */
    var editInvoice: Option<Draft>
    var editSupplierQuery: string

    /** The rows of the table. */
    function Filtered(): seq<Invoice>
      reads this
    {
      FilterInvoices(invoices, suppliers, projects, filterProject, filterDate, search)
    }

    constructor()
      ensures invoices == [] && suppliers == [] && projects == [] && products == []
      ensures filterProject == "" && filterDate == "" && search == ""
      ensures selected == None && editInvoice == None && editSupplierQuery == ""
    {
      invoices, suppliers, projects, products := [], [], [], [];
      filterProject, filterDate, search := "", "", "";
      selected, editInvoice, editSupplierQuery := None, None, "";
    }

    /** `loadData`: each reply replaces its list, and a failed query (`None`)
        empties it; the invoices' failure is also reported. */
    method LoadData(inv: Option<seq<Invoice>>, supp: Option<seq<Supplier>>,
                    proj: Option<seq<Project>>, prod: Option<seq<Product>>)
      modifies this
      ensures invoices == inv.GetOr([]) && suppliers == supp.GetOr([])
      ensures projects == proj.GetOr([]) && products == prod.GetOr([])
      ensures filterProject == old(filterProject) && filterDate == old(filterDate) && search == old(search)
      ensures selected == old(selected) && editInvoice == old(editInvoice) && editSupplierQuery == old(editSupplierQuery)
    {
      invoices, suppliers := inv.GetOr([]), supp.GetOr([]);
      projects, products := proj.GetOr([]), prod.GetOr([]);
    }

    /** `openInvoiceDetails`: `single()` succeeds only when exactly one stored
        invoice has the id; otherwise the failure is reported and nothing
        changes. */
    method OpenInvoiceDetails(db: Db, id: Id, ok: bool)
      modifies this
      ensures var hits := Filter(db.invoices, (inv: Invoice) => inv.id == id);
        selected == if ok && |hits| == 1 then Some(hits[0]) else old(selected)
      ensures selected.Some? && selected != old(selected) ==> selected.value in db.invoices && selected.value.id == id
      ensures invoices == old(invoices) && suppliers == old(suppliers) && projects == old(projects) && products == old(products)
      ensures filterProject == old(filterProject) && filterDate == old(filterDate) && search == old(search)
      ensures editInvoice == old(editInvoice) && editSupplierQuery == old(editSupplierQuery)
    {
      var hits := Filter(db.invoices, (inv: Invoice) => inv.id == id);
      if ok && |hits| == 1 {
        assert hits[0] in hits;
        selected := Some(hits[0]);
      }
    }

    /** `closeModal`: both dialogs closed, the supplier query cleared. */
    method CloseModal()
      modifies this
      ensures selected == None && editInvoice == None && editSupplierQuery == ""
      ensures invoices == old(invoices) && suppliers == old(suppliers) && projects == old(projects) && products == old(products)
      ensures filterProject == old(filterProject) && filterDate == old(filterDate) && search == old(search)
    {
      selected, editInvoice, editSupplierQuery := None, None, "";
    }

    /** `deleteInvoice`: after a confirmed, successful delete the invoice is
        gone from the store and from the list, the rest in order. */
    method DeleteInvoice(id: Id, confirmed: bool, ok: bool, db: Db) returns (db': Db)
      modifies this
      ensures !(confirmed && ok) ==> db' == db && invoices == old(invoices)
      ensures confirmed && ok ==>
        && db' == Store.DeleteInvoice(db, id)
        && invoices == Filter(old(invoices), (inv: Invoice) => inv.id != id)
        && IsSubsequence(invoices, old(invoices))
        && forall inv :: inv in invoices <==> inv in old(invoices) && inv.id != id
      ensures suppliers == old(suppliers) && projects == old(projects) && products == old(products)
      ensures filterProject == old(filterProject) && filterDate == old(filterDate) && search == old(search)
      ensures selected == old(selected) && editInvoice == old(editInvoice) && editSupplierQuery == old(editSupplierQuery)
    {
      if !confirmed || !ok {
        return db;
      }
      db' := Store.DeleteInvoice(db, id);
      FilterIsSubsequence(invoices, (inv: Invoice) => inv.id != id);
      invoices := Filter(invoices, (inv: Invoice) => inv.id != id);
    }

    /** `startEdit`: the dialog opens on a draft of `inv`, and the supplier
        query shows the draft's supplier text. */
    method StartEdit(inv: Invoice)
      modifies this
      ensures editInvoice == Some(DraftOf(inv, suppliers)) && editSupplierQuery == DraftOf(inv, suppliers).supplier
      ensures invoices == old(invoices) && suppliers == old(suppliers) && projects == old(projects) && products == old(products)
      ensures filterProject == old(filterProject) && filterDate == old(filterDate) && search == old(search)
      ensures selected == old(selected)
    {
      var d := DraftOf(inv, suppliers);
      editInvoice, editSupplierQuery := Some(d), d.supplier;
    }

    /** `editUpdateItem`. */
    method EditUpdateItem(id: RowId, p: Patch)
      requires editInvoice.Some?
      modifies this
      ensures editInvoice == Some(old(editInvoice).value.(items := InvoiceRows.UpdateItem(old(editInvoice).value.items, id, p)))
      ensures editSupplierQuery == old(editSupplierQuery) && selected == old(selected)
      ensures invoices == old(invoices) && suppliers == old(suppliers) && projects == old(projects) && products == old(products)
      ensures filterProject == old(filterProject) && filterDate == old(filterDate) && search == old(search)
    {
      var d := editInvoice.value;
      editInvoice := Some(d.(items := InvoiceRows.UpdateItem(d.items, id, p)));
    }

    /** `editAddRow`: the new row's key stands for the random id the
        handler draws, which no row of the draft carries. */
    method EditAddRow(key: RowId)
      requires editInvoice.Some? && !HasRow(editInvoice.value.items, key)
      modifies this
      ensures editInvoice == Some(old(editInvoice).value.(items := InvoiceRows.AddRow(old(editInvoice).value.items, key)))
      ensures editSupplierQuery == old(editSupplierQuery) && selected == old(selected)
      ensures invoices == old(invoices) && suppliers == old(suppliers) && projects == old(projects) && products == old(products)
      ensures filterProject == old(filterProject) && filterDate == old(filterDate) && search == old(search)
    {
      var d := editInvoice.value;
      editInvoice := Some(d.(items := InvoiceRows.AddRow(d.items, key)));
    }

    /** `editRemoveRow`. */
    method EditRemoveRow(id: RowId)
      requires editInvoice.Some?
      modifies this
      ensures editInvoice == Some(old(editInvoice).value.(items := InvoiceRows.RemoveRow(old(editInvoice).value.items, id)))
      ensures editSupplierQuery == old(editSupplierQuery) && selected == old(selected)
      ensures invoices == old(invoices) && suppliers == old(suppliers) && projects == old(projects) && products == old(products)
      ensures filterProject == old(filterProject) && filterDate == old(filterDate) && search == old(search)
    {
      var d := editInvoice.value;
      editInvoice := Some(d.(items := InvoiceRows.RemoveRow(d.items, id)));
    }

    /** Typing in the edit dialog's supplier field: the text goes to both the
        query and the draft, and the draft's supplier id is dropped. */
    method TypeEditSupplier(text: string)
      requires editInvoice.Some?
      modifies this
      ensures editInvoice == Some(old(editInvoice).value.(supplier := text, supplierId := None))
      ensures editSupplierQuery == text && selected == old(selected)
      ensures invoices == old(invoices) && suppliers == old(suppliers) && projects == old(projects) && products == old(products)
      ensures filterProject == old(filterProject) && filterDate == old(filterDate) && search == old(search)
    {
      editSupplierQuery := text;
      editInvoice := Some(editInvoice.value.(supplier := text, supplierId := None));
    }

    /** Clicking a supplier suggestion in the edit dialog binds its name and
        id. */
    method ChooseEditSupplier(s: Supplier)
      requires editInvoice.Some?
      modifies this
      ensures editInvoice == Some(old(editInvoice).value.(supplier := s.name, supplierId := Some(s.id)))
      ensures editSupplierQuery == s.name && selected == old(selected)
      ensures invoices == old(invoices) && suppliers == old(suppliers) && projects == old(projects) && products == old(products)
      ensures filterProject == old(filterProject) && filterDate == old(filterDate) && search == old(search)
    {
      editSupplierQuery := s.name;
      editInvoice := Some(editInvoice.value.(supplier := s.name, supplierId := Some(s.id)));
    }

    /** `addNewSupplierFromEdit`: inserts the trimmed query and binds the
        draft to the new supplier; a blank query or a failed insert changes
        nothing. */
    method AddNewSupplierFromEdit(db: Db, ok: bool) returns (db': Db)
      requires editInvoice.Some?
      modifies this
      ensures IsBlank(old(editSupplierQuery)) || !ok ==>
        db' == db && suppliers == old(suppliers) && editInvoice == old(editInvoice) && editSupplierQuery == old(editSupplierQuery)
      ensures !IsBlank(old(editSupplierQuery)) && ok ==>
        && var (d, s) := InsertSupplier(db, Trim(old(editSupplierQuery)));
        && db' == d && suppliers == old(suppliers) + [s]
        && editInvoice == Some(old(editInvoice).value.(supplier := s.name, supplierId := Some(s.id)))
        && editSupplierQuery == s.name
      ensures invoices == old(invoices) && projects == old(projects) && products == old(products) && selected == old(selected)
      ensures filterProject == old(filterProject) && filterDate == old(filterDate) && search == old(search)
    {
      var name := Trim(editSupplierQuery);
      if name == [] || !ok {
        return db;
      }
      var s;
      db', s := InsertSupplier(db, name).0, InsertSupplier(db, name).1;
      suppliers := suppliers + [s];
      editInvoice := Some(editInvoice.value.(supplier := s.name, supplierId := Some(s.id)));
      editSupplierQuery := s.name;
    }

    /** `handleSaveEdit`. Without an open draft the handler returns silently:
        `Rejected(NoDraft)` stands for that return, shows no alert and
        changes nothing. Otherwise the
        outcome, the prompts and the database follow `SaveEditResult`; a
        saved edit closes the dialogs, and any other outcome leaves the page
        as it was. */
    method HandleSaveEdit(db: Db, a: EditAnswers) returns (outcome: Outcome<Reason>, prompts: seq<Prompt>, db': Db)
      modifies this
      ensures old(editInvoice).None? ==> outcome == Rejected(NoDraft) && prompts == [] && db' == db
      ensures old(editInvoice).Some? ==>
        SaveResult(outcome, prompts, db') == SaveEditResult(old(editInvoice).value, old(suppliers), db, a)
      ensures outcome == Saved ==> selected == None && editInvoice == None && editSupplierQuery == ""
      ensures outcome != Saved ==>
        selected == old(selected) && editInvoice == old(editInvoice) && editSupplierQuery == old(editSupplierQuery)
      ensures invoices == old(invoices) && suppliers == old(suppliers) && projects == old(projects) && products == old(products)
      ensures filterProject == old(filterProject) && filterDate == old(filterDate) && search == old(search)
    {
      if editInvoice.None? {
        return Rejected(NoDraft), [], db;
      }
      var r := SaveEdit(editInvoice.value, suppliers, db, a);
      outcome, prompts, db' := r.outcome, r.prompts, r.db;
      if outcome == Saved {
        CloseModal();
      }
    }
  }
}
