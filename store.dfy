/** The hosted database, seen as an in-memory value. Every query the views
    issue is a read of one of these collections, and every write is one of
    the functions below; whether a write succeeds is decided by the caller
    (a boolean reply from the service). */
module Store {
  import opened Common

  datatype Product = Product(id: Id, name: string, normalizedName: Option<string>)

  datatype Supplier = Supplier(id: Id, name: string)

  datatype Project = Project(id: Id, name: string, active: bool)

  /** One line item as kept in an invoice's `items` column. */
  datatype StoredItem = StoredItem(
    id: RowId,
    productName: string,
    productId: Option<Id>,
    qty: real,
    unitPrice: real,
    projectId: Option<Id>)

  datatype Invoice = Invoice(
    id: Id,
    number: string,
    supplier: Option<string>,
    supplierId: Option<Id>,
    date: string,
    totalCost: Option<real>,
    createdBy: Option<string>,
    items: seq<StoredItem>)

  /** The columns an invoice insert or update writes. */
  datatype InvoiceFields = InvoiceFields(
    number: string,
    supplier: Option<string>,
    supplierId: Option<Id>,
    date: string,
    totalCost: real,
    items: seq<StoredItem>)

  /** A row of the separate `invoice_items` collection. */
  datatype InvoiceItem = InvoiceItem(invoiceId: Id, productId: Id, projectId: Id, quantity: real, unitPrice: real)

  datatype Db = Db(
    products: seq<Product>,
    suppliers: seq<Supplier>,
    projects: seq<Project>,
    invoices: seq<Invoice>,
    invoiceItems: seq<InvoiceItem>,
    nextId: Id)

  /** `insert(...).select().single()` on `products`: the new row, with the
      next identifier. */
  function InsertProduct(db: Db, name: string, normalized: Option<string>): (r: (Db, Product))
    ensures r.1 == Product(db.nextId, name, normalized)
    ensures r.0 == db.(products := db.products + [r.1], nextId := db.nextId + 1)
  {
    var p := Product(db.nextId, name, normalized);
    (db.(products := db.products + [p], nextId := db.nextId + 1), p)
  }

  function InsertSupplier(db: Db, name: string): (r: (Db, Supplier))
    ensures r.1 == Supplier(db.nextId, name)
    ensures r.0 == db.(suppliers := db.suppliers + [r.1], nextId := db.nextId + 1)
  {
    var s := Supplier(db.nextId, name);
    (db.(suppliers := db.suppliers + [s], nextId := db.nextId + 1), s)
  }

  function NewInvoice(id: Id, f: InvoiceFields, createdBy: string): Invoice {
    Invoice(id, f.number, f.supplier, f.supplierId, f.date, Some(f.totalCost), Some(createdBy), f.items)
  }

  function InsertInvoice(db: Db, f: InvoiceFields, createdBy: string): Db {
    db.(invoices := db.invoices + [NewInvoice(db.nextId, f, createdBy)], nextId := db.nextId + 1)
  }

  /** The invoice with the written columns replaced; id and author are kept. */
  function Overwrite(inv: Invoice, f: InvoiceFields): Invoice {
    inv.(number := f.number, supplier := f.supplier, supplierId := f.supplierId,
         date := f.date, totalCost := Some(f.totalCost), items := f.items)
  }

  /** `update(f).eq("id", id)` on `invoices`: every row with that id. */
  function UpdateInvoice(db: Db, id: Id, f: InvoiceFields): Db {
    db.(invoices := UpdateWhere(db.invoices, (inv: Invoice) => inv.id == id, (inv: Invoice) => Overwrite(inv, f)))
  }

  /** `update({ name }).eq("id", id)` on `products`; the stored normalized
      name is not touched. */
  function RenameProduct(db: Db, id: Id, name: string): Db {
    db.(products := UpdateWhere(db.products, (p: Product) => p.id == id, (p: Product) => p.(name := name)))
  }

  /** `delete().eq("id", id)` on `invoices`. */
  function DeleteInvoice(db: Db, id: Id): Db {
    db.(invoices := Filter(db.invoices, (inv: Invoice) => inv.id != id))
  }

  function InsertInvoiceItem(db: Db, item: InvoiceItem): Db {
    db.(invoiceItems := db.invoiceItems + [item])
  }

  /** `select(...).eq("number", number)` returns at least one row. */
  predicate HasNumber(invoices: seq<Invoice>, number: string) {
    exists inv :: inv in invoices && inv.number == number
  }
}
