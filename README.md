# Pintcom invoice client — a verified model

Pintcom is a small invoice-entry and reporting front end over a hosted
database. Operators record purchase invoices: a supplier, a date, a declared
total and line items, each tied to a product and a project. Accountants filter
the invoice history and sum the totals. An administrator sees per-product
purchase statistics.

This project models the logic that runs inside the views once the database is
treated as a value:

- **Row lists keyed by a row id.** Add a blank row, remove by id, or patch the
  rows with a given id. The new-invoice form and the edit dialog share this
  code (`InvoiceRows`). The item form has its own one-field variant
  (`InvoiceItemsForm`).
- **The two invoice save pipelines.** Create (`DataEntryInvoices`) and edit
  (`InvoicesList`) each run ordered checks with early exits, then
  confirmation prompts. Create also has a duplicate-number prompt. Both have
  the reconciliation prompt: mismatch exactly when |Σ qty × price − total|
  > 0.01, with blank fields read as 0. Each then builds its payload; the edit
  path also resolves the supplier id by name. Each pipeline is a pure
  specification function plus a method that runs the handler's steps and is
  proved equal to it.
- **Both name normalizers and the product duplicate gates** (`ProductsView`,
  `InvoiceItemsForm`). The two are deliberately separate functions, as in the
  code.
- **The sequential item save** of the item form. It writes row by row and
  stops at the first invalid row or refused insert, so earlier rows are
  already written.
- **The report filters and aggregations** (`InvoicesList`, `AccountantView`,
  `AdminProductStats`).
- **Session → profile → role → visible pages** (`App`).

Shared vocabulary lives in `Common` (optional values, blank-able amounts,
`filter`, `find`, map-by-id, `new Set`, `reduce`), `Text` (`trim`, the `\s`
class, `toLowerCase`, `includes`, `replace` with a string pattern,
`split(...)[0]`) and `Store` (the records and the database writes).

Modelling choices:

- The database is a `Db` value threaded through the operations. A service
  reply that can fail is a boolean or `Option` parameter; the one read whose
  failure is not modelled is named under "Left out".
- `window.confirm` answers are boolean parameters. An `alert` that ends an
  action is an `Outcome` (`Rejected`, `Declined`, `WriteFailed`, `Saved`).
  The one exception is `Rejected(NoDraft)` in the edit dialog: saving with no
  draft open returns silently, with no alert and no change.
- Amounts are exact `real`s. A blank input is `Blank` and reads as 0.
- Row keys drawn from `Math.random()` are handed out from a counter in the
  new-invoice form and the item form, whose class invariants keep them
  pairwise distinct (`InvoiceRows.KeysFresh`,
  `InvoiceItemsForm.ItemKeysFresh`). The edit dialog's new row takes a key
  that no row of the draft carries.
- Each page whose handlers update React state is a `class` with one field per
  state variable, and its methods state the whole new state.

Behaviour of the code worth noting:

- Neither normalizer is idempotent. `InvoiceItemsForm.NormalizeNameNotIdempotent`
  and `ProductsView.NormalizeNotIdempotent` exhibit inputs.
- On create, the row checks run AFTER the duplicate-number prompt, while
  the header checks run before it. `DataEntryInvoices.DuplicatePromptPrecedesRowChecks`
  states this.
- On create, the invoice stores the trimmed supplier text AND the bound
  supplier id. The edit path drops the text when an id is present.
- The item form looks a product up with `.maybeSingle()`. Two or more
  matching products make that query fail, and the row then creates yet
  another product.

## Model

| member | source | states |
|---|---|---|
| `InvoiceRows.AddRow` | src/views/DataEntryInvoices.jsx:34-36 | exactly one blank row (empty name, no product, blank amounts, no project) is appended; the earlier rows are untouched |
| `InvoiceRows.RemoveRow` | src/views/DataEntryInvoices.jsx:38-40 | the result holds exactly the rows whose id differs, each as often as before, as an order-preserving subsequence |
| `InvoiceRows.UpdateItem` | src/views/DataEntryInvoices.jsx:42-44 | length and order kept; rows with the id get the patch fields overridden and keep their other fields; every other row is unchanged |
| `InvoiceRows.Apply` | src/views/InvoicesList.jsx:106 | `{ ...r, ...patch }`: each field present in the patch replaces the row's, the id is never changed |
| `InvoiceRows.RemoveAddedRow` | src/views/DataEntryInvoices.jsx:34-40 | removing the row just added with a fresh key gives back the previous rows |
| `InvoiceRows.UpdateAbsentRow` | src/views/DataEntryInvoices.jsx:42-44 | patching an id that no row carries changes nothing |
| `InvoiceRows.RemoveAfterUpdate` | src/views/InvoicesList.jsx:103-125 | removing a row erases any earlier patch of it |
| `InvoiceRows.AddRowKeepsKeysFresh` | src/views/DataEntryInvoices.jsx:34-36 | a fresh key is not in use, and appending its row keeps all keys distinct |
| `InvoiceRows.RemoveRowKeepsKeysFresh` | src/views/DataEntryInvoices.jsx:38-40 | removal keeps the row keys distinct |
| `InvoiceRows.UpdateItemKeepsKeysFresh` | src/views/DataEntryInvoices.jsx:42-44 | patching keeps the row keys distinct |
| `InvoiceRows.RemoveRowDropsOne` | src/views/DataEntryInvoices.jsx:38-40 | with distinct keys, removing a present key drops exactly one row |
| `InvoiceRows.AddRowKeepsSum` | src/views/DataEntryInvoices.jsx:91-94 | a blank row adds 0 to the reconciled sum |
| `InvoiceRows.ReconciliationExamples` | src/views/DataEntryInvoices.jsx:91-96 | rows 2×5.00 and 3×1.50 match a declared 14.50 and mismatch a declared 20.00 |
| `InvoiceRows.ItemsErrorNoneIff` | src/views/DataEntryInvoices.jsx:85-88 | the validation loop passes iff every row has a non-blank name and a project |
| `InvoiceRows.ItemsErrorIsFirstBad` | src/views/DataEntryInvoices.jsx:85-88 | the complaint is the one about the first bad row, name checked before project |
| `InvoiceRows.ItemsErrorAppend` | src/views/InvoicesList.jsx:148-151 | validating a + b reports a's first complaint if any, else b's |
| `InvoiceRows.CheckRows` | src/views/InvoicesList.jsx:148-151 | the loop with early return yields the complaint of the validation specification |
| `InvoiceRows.SumRows` | src/views/InvoicesList.jsx:154-157 | the left-to-right `reduce` yields Σ qty × price with blanks as 0 |
| `InvoiceRows.PrepareItems` | src/views/DataEntryInvoices.jsx:103-107 | the payload has one item per row |
| `InvoiceRows.PrepareItemsPointwise` | src/views/InvoicesList.jsx:178-182 | item i keeps row i's id, name, product and project, with qty and unit price coerced from blank to 0 |
| `InvoiceRows.PreparedSum` | src/views/DataEntryInvoices.jsx:91-107 | the written items add up to exactly the sum the reconciliation checked |
| `InvoiceRows.EditRows` | src/views/InvoicesList.jsx:89-96 | one editable row per stored item, each built from that item |
| `InvoiceRows.EditRowsRoundTrip` | src/views/InvoicesList.jsx:89-96 | loading stored items into the editor and writing them back unchanged reproduces them |
| `Picker.CreateProductIff` | src/views/DataEntryInvoices.jsx:222-224 | the create-product button shows iff the trimmed text is longer than 1 and no product name contains the text (case-insensitively) |
| `Picker.CreateSupplierIff` | src/views/DataEntryInvoices.jsx:172-175 | the create-supplier button shows iff text is typed and no supplier name contains it |
| `Picker.ProductPickerExclusive` | src/views/DataEntryInvoices.jsx:207-224 | suggestions and the create button never show together; for a trimmed text longer than 1 one of them does |
| `Picker.ExactNameSuggested` | src/views/DataEntryInvoices.jsx:191-193 | a known product typed in any letter case is suggested and not offered for creation |
| `Picker.NarrowingSuggestions` | src/views/DataEntryInvoices.jsx:191-193 | typing more characters only narrows the suggestions |
| `DataEntryInvoices.RunChecks` | src/views/DataEntryInvoices.jsx:66-101 | the handler's checks, duplicate prompt, validation loop and mismatch prompt yield the stop and prompts of the specification |
| `DataEntryInvoices.Save` | src/views/DataEntryInvoices.jsx:66-123 | the checks then the insert give the result of the specification |
| `DataEntryInvoices.SaveInvoiceSucceedsIff` | src/views/DataEntryInvoices.jsx:66-123 | saved iff header and rows valid, a duplicate confirmed, a mismatch confirmed and the insert accepted; the database changes only then, by inserting the payload |
| `DataEntryInvoices.SaveInvoicePrompts` | src/views/DataEntryInvoices.jsx:72-101 | the duplicate prompt is raised iff the header is valid and the trimmed number is taken; the mismatch prompt iff, past that gate, the rows are valid and off by more than 0.01 |
| `DataEntryInvoices.SaveInvoiceRejections` | src/views/DataEntryInvoices.jsx:67-88 | rejected iff a header check fails (before any prompt) or, past the duplicate gate, a row check fails; the reason is the first failed check |
| `DataEntryInvoices.PayloadWellFormed` | src/views/DataEntryInvoices.jsx:103-117 | a validated payload has a non-blank number and supplier, only named rows with a project, and the reconciled sum |
| `DataEntryInvoices.SavedInvoiceWellFormed` | src/views/DataEntryInvoices.jsx:103-120 | the saved invoice is appended with the next id, the author, the trimmed number and supplier, valid rows, and a total within 0.01 of the rows unless the mismatch was confirmed |
| `DataEntryInvoices.BlankNumberRejectedFirst` | src/views/DataEntryInvoices.jsx:67 | a blank number is reported first, with no prompt and no write |
| `DataEntryInvoices.DuplicatePromptPrecedesRowChecks` | src/views/DataEntryInvoices.jsx:77-88 | declining the duplicate prompt ends the save before the rows are checked |
| `DataEntryInvoices.DataEntryForm.constructor` | src/views/DataEntryInvoices.jsx:13-21 | the form starts empty, dated today, with one blank row and not saving |
| `DataEntryInvoices.DataEntryForm.Load` | src/views/DataEntryInvoices.jsx:23-32 | the pickers get the active projects, all products and all suppliers, each list empty when its read failed; the form is untouched |
| `DataEntryInvoices.DataEntryForm.AddRow` | src/views/DataEntryInvoices.jsx:34-36 | `items` becomes `AddRow(items)` with a fresh key; nothing else changes |
| `DataEntryInvoices.DataEntryForm.RemoveRow` | src/views/DataEntryInvoices.jsx:38-40 | `items` becomes `RemoveRow(items, id)`; nothing else changes |
| `DataEntryInvoices.DataEntryForm.UpdateItem` | src/views/DataEntryInvoices.jsx:42-44 | `items` becomes `UpdateItem(items, id, patch)`; nothing else changes |
| `DataEntryInvoices.DataEntryForm.TypeSupplier` | src/views/DataEntryInvoices.jsx:147-150 | typing sets the supplier text and always clears the bound supplier id |
| `DataEntryInvoices.DataEntryForm.ChooseSupplier` | src/views/DataEntryInvoices.jsx:161-164 | choosing a suggestion binds both its name and its id |
| `DataEntryInvoices.DataEntryForm.AddNewProduct` | src/views/DataEntryInvoices.jsx:46-53 | a blank name or a refused insert changes nothing; otherwise the trimmed name is inserted, appended to the products, and the row is bound to it |
| `DataEntryInvoices.DataEntryForm.AddNewSupplier` | src/views/DataEntryInvoices.jsx:55-63 | a blank text or a refused insert changes nothing; otherwise the trimmed text is inserted and its id bound, the typed text kept |
| `DataEntryInvoices.DataEntryForm.Reset` | src/views/DataEntryInvoices.jsx:125-130 | fields emptied, supplier id null, exactly one blank row, the date kept |
| `DataEntryInvoices.DataEntryForm.SaveInvoice` | src/views/DataEntryInvoices.jsx:66-132 | outcome, prompts and database follow the save specification; success resets the form, any other outcome leaves it unchanged |
| `InvoicesList.SupplierLabel` | src/views/InvoicesList.jsx:198-201 | the free text when present and non-empty, else the name of the supplier the id points at, else empty |
| `InvoicesList.FilteredMembership` | src/views/InvoicesList.jsx:197-216 | an invoice is shown iff it passes the project, date and search tests, and the shown list is an order-preserving subsequence |
| `InvoicesList.NoFiltersShowAll` | src/views/InvoicesList.jsx:203-211 | with every filter empty the whole list is shown |
| `InvoicesList.SearchNarrows` | src/views/InvoicesList.jsx:209-213 | typing more into the search box only hides invoices |
| `InvoicesList.ResolveSupplierId` | src/views/InvoicesList.jsx:167-170 | the bound id if any; otherwise an id iff some supplier's lower-cased name equals the lower-cased text, and then the first such supplier's |
| `InvoicesList.EditPayloadSupplier` | src/views/InvoicesList.jsx:170-175 | the payload never carries both text and id; the trimmed text is kept iff no id was resolved and the text is not blank |
| `InvoicesList.UneditedSaveKeepsInvoice` | src/views/InvoicesList.jsx:80-100 | opening an invoice and saving it untouched writes back its items, date and total (missing total as 0) and keeps a bound supplier id |
| `InvoicesList.RunEditChecks` | src/views/InvoicesList.jsx:143-164 | the handler's checks, validation loop and mismatch prompt yield the stop and prompts of the specification |
| `InvoicesList.SaveEdit` | src/views/InvoicesList.jsx:143-189 | the checks then the update give the result of the specification |
| `InvoicesList.SaveEditSucceedsIff` | src/views/InvoicesList.jsx:143-189 | written iff every check passes, a mismatch is confirmed and the update is accepted; the database changes only then, by that update |
| `InvoicesList.SaveEditChecksInOrder` | src/views/InvoicesList.jsx:143-164 | checks in the order number, supplier (text or id), date, rows; the first failure is reported with no prompt; the mismatch prompt is raised iff all pass and the sum is off by more than 0.01 |
| `InvoicesList.EditPayloadWellFormed` | src/views/InvoicesList.jsx:172-183 | a validated payload has a non-blank number, a supplier by id or non-blank text, the rows' count and keys, valid rows, and the reconciled sum |
| `InvoicesList.SavedEditRewritesOnlyThatInvoice` | src/views/InvoicesList.jsx:185 | a saved edit rewrites the invoices with the draft's id, keeping id and author, and leaves every other invoice and collection unchanged |
| `InvoicesList.InvoicesListPage.constructor` | src/views/InvoicesList.jsx:10-21 | empty lists and filters, no dialog open |
| `InvoicesList.InvoicesListPage.LoadData` | src/views/InvoicesList.jsx:27-48 | each list becomes its reply, or empty when that query failed |
| `InvoicesList.InvoicesListPage.OpenInvoiceDetails` | src/views/InvoicesList.jsx:51-59 | the details show the one stored invoice with the id; otherwise nothing changes |
| `InvoicesList.InvoicesListPage.CloseModal` | src/views/InvoicesList.jsx:61-65 | both dialogs closed and the supplier query cleared |
| `InvoicesList.InvoicesListPage.DeleteInvoice` | src/views/InvoicesList.jsx:68-77 | only a confirmed, accepted delete removes the invoice from store and list, the rest in order |
| `InvoicesList.InvoicesListPage.StartEdit` | src/views/InvoicesList.jsx:80-100 | the dialog opens on a draft copy and the supplier query shows the draft's supplier text |
| `InvoicesList.InvoicesListPage.EditUpdateItem` | src/views/InvoicesList.jsx:103-108 | only the draft's rows change, as `UpdateItem` says; lists, filters and other dialog state are kept |
| `InvoicesList.InvoicesListPage.EditAddRow` | src/views/InvoicesList.jsx:110-118 | only the draft's rows change, one blank row appended under a key no draft row carries; filters kept |
| `InvoicesList.InvoicesListPage.EditRemoveRow` | src/views/InvoicesList.jsx:120-125 | only the draft's rows change, the rows with that id dropped; filters kept |
| `InvoicesList.InvoicesListPage.TypeEditSupplier` | src/views/InvoicesList.jsx:424-427 | typing sets query and draft text and clears the draft's supplier id; rows and filters kept |
| `InvoicesList.InvoicesListPage.ChooseEditSupplier` | src/views/InvoicesList.jsx:440-442 | choosing a suggestion binds name and id and shows the name; rows and filters kept |
| `InvoicesList.InvoicesListPage.AddNewSupplierFromEdit` | src/views/InvoicesList.jsx:128-136 | a blank query or a refused insert changes nothing; otherwise the trimmed query is inserted and bound to the draft; filters kept |
| `InvoicesList.InvoicesListPage.HandleSaveEdit` | src/views/InvoicesList.jsx:139-194 | no draft, no action; otherwise outcome, prompts and database follow the edit specification, and only a saved edit closes the dialogs |
| `AccountantView.DateLeTotal` | src/views/AccountantView.jsx:46-50 | any two dates are comparable |
| `AccountantView.DateLeTransitive` | src/views/AccountantView.jsx:46-50 | the date order is transitive |
| `AccountantView.RunFilters` | src/views/AccountantView.jsx:40-53 | the successive reassignments of `result` yield the one-pass filter on the three tests |
| `AccountantView.FilterByMembership` | src/views/AccountantView.jsx:43-50 | kept iff supplier equals the selection (if set), date ≥ from (if set) and date ≤ to (if set); an order-preserving subsequence |
| `AccountantView.NoFiltersKeepAll` | src/views/AccountantView.jsx:41-52 | with no filter set the result is all invoices |
| `AccountantView.LaterStartShowsFewer` | src/views/AccountantView.jsx:46-47 | a later start date only hides invoices |
| `AccountantView.SupplierOptionsSpec` | src/views/AccountantView.jsx:35 | each distinct supplier value (a missing one too) exactly once, in first-occurrence order |
| `AccountantView.TotalSplitsBySupplier` | src/views/AccountantView.jsx:63-66 | the total splits into the selected supplier's total plus everyone else's |
| `AccountantView.FilteredTotalAtMostAll` | src/views/AccountantView.jsx:63-66 | with no negative totals, narrowing never raises the total |
| `AccountantView.TotalNonNegative` | src/views/AccountantView.jsx:63-66 | with no negative totals the sum is not negative |
| `AccountantView.AccountantPage.constructor` | src/views/AccountantView.jsx:10-15 | empty lists and filters |
| `AccountantView.AccountantPage.LoadInvoices` | src/views/AccountantView.jsx:22-38 | a failed load leaves invoices, suppliers and filtered unchanged; otherwise all three come from the reply |
| `AccountantView.AccountantPage.ApplyFilters` | src/views/AccountantView.jsx:40-53 | `filtered` becomes the filter of `invoices` by the three tests; nothing else changes |
| `AccountantView.AccountantPage.ClearFilters` | src/views/AccountantView.jsx:55-60 | the three filters reset to "" and `filtered` becomes `invoices` |
| `App.DeriveProfileSpec` | src/App.jsx:29-38 | no session, no profile; id and email copied; role the metadata role if truthy else "accountant"; name the metadata name if truthy else the email before the first '@' |
| `App.RoleLabelSpec` | src/App.jsx:148-153 | the three roles get three distinct labels, any other value is shown unchanged |
| `App.PageGating` | src/App.jsx:65-84 | data_entry and accountant get the five-page nav and the current page, admin only the admin view, any other role neither; no role defaults to the nav |
| `App.NoSessionShowsLogin` | src/App.jsx:45 | without a session only the login screen is shown |
| `App.AppShell.constructor` | src/App.jsx:17-19 | no session, no profile, page "invoicesList", login shown |
| `App.AppShell.SetSession` | src/App.jsx:21-27 | the session is stored as it arrives |
| `App.AppShell.SyncProfile` | src/App.jsx:29-38 | the profile is derived from the session; no session shows the login |
| `App.AppShell.Navigate` | src/App.jsx:68-72 | a nav button sets the page only |
| `App.AppShell.Logout` | src/App.jsx:40-43 | the profile is dropped, so until the session ends no page is shown |
| `ProductsView.NormalizeHasNoSeparators` | src/views/ProductsView.jsx:78-85 | the key has no '.', '-' or white space, so the final trim changes nothing |
| `ProductsView.NormalizeIgnoresCase` | src/views/ProductsView.jsx:80 | the key depends only on the lower-cased name |
| `ProductsView.NormalizeIgnoresSeparator` | src/views/ProductsView.jsx:81 | inserting a dot, hyphen or white space anywhere does not change the key |
| `ProductsView.FirstSubstitution` | src/views/ProductsView.jsx:82 | only the first "винтчета" becomes "винт" |
| `ProductsView.SecondSubstitution` | src/views/ProductsView.jsx:82 | on "винтвинтчета" the substitution finds the occurrence the first pass exposed |
| `ProductsView.KeyOfWord` | src/views/ProductsView.jsx:78-85 | for a lower-case Cyrillic word whose rewrite holds no 'к', the key is that "винтчета" rewrite |
| `ProductsView.NormalizeNotIdempotent` | src/views/ProductsView.jsx:82-83 | when a rewrite exposes a new "винтчета", normalizing the key changes it again |
| `ProductsView.AddProductCheckSpec` | src/views/ProductsView.jsx:28-39 | accepted iff the trimmed name is not blank and no product's key equals its key; a refusal names a colliding product |
| `ProductsView.CaseVariantRefused` | src/views/ProductsView.jsx:32-39 | a name differing from a product's only in case is refused |
| `ProductsView.RenameCheckSpec` | src/views/ProductsView.jsx:51-58 | a rename is accepted iff the name is not blank and collides with no OTHER product |
| `ProductsView.OwnSpellingRenameAllowed` | src/views/ProductsView.jsx:53-58 | renaming to another spelling of its own key is allowed, while adding that spelling as new is refused |
| `ProductsView.ProductsPage.constructor` | src/views/ProductsView.jsx:10-14 | no products, empty inputs, not editing, not loading |
| `ProductsView.ProductsPage.LoadProducts` | src/views/ProductsView.jsx:16-22 | a failed query changes nothing; otherwise the products are the reply |
| `ProductsView.ProductsPage.AddProduct` | src/views/ProductsView.jsx:28-49 | rejected by the checks with no insert; otherwise the trimmed name (not the key) is inserted; `newName` cleared only on success |
| `ProductsView.ProductsPage.StartEdit` | src/views/ProductsView.jsx:143-146 | editing that product, its name in the input |
| `ProductsView.ProductsPage.SaveEdit` | src/views/ProductsView.jsx:51-69 | rejected by the checks with no update; otherwise the trimmed name is written; the editor closes only on success |
| `InvoiceItemsForm.CollapseShape` | src/components/InvoiceItemsForm.jsx:10 | the result holds only spaces and the input's other characters, never two separators side by side, and starts with a space iff the input starts with a separator |
| `InvoiceItemsForm.CollapseSplitsAtRun` | src/components/InvoiceItemsForm.jsx:10 | a maximal run of `[.,\s]` becomes exactly one space and the text on each side collapses on its own |
| `InvoiceItemsForm.RunEndsInside` | src/components/InvoiceItemsForm.jsx:10 | a run cannot reach past a character outside the separator class |
| `InvoiceItemsForm.CollapseKeepsWords` | src/components/InvoiceItemsForm.jsx:10 | every other character is kept, in order |
| `InvoiceItemsForm.NormalizeNameShape` | src/components/InvoiceItemsForm.jsx:9-11 | the normalized name has no '.' or ',', never two white-space characters in a row, and the trimmed, lower-cased name's other characters in order |
| `InvoiceItemsForm.NormalizeNameNotIdempotent` | src/components/InvoiceItemsForm.jsx:9-11 | "a." normalizes to "a ", which normalizes to "a" |
| `InvoiceItemsForm.SetField` | src/components/InvoiceItemsForm.jsx:40 | `{ ...i, [field]: value }` changes the one named field only |
| `InvoiceItemsForm.SetFieldLastWins` | src/components/InvoiceItemsForm.jsx:40 | setting the same field twice keeps the second value |
| `InvoiceItemsForm.AddItemRow` | src/components/InvoiceItemsForm.jsx:30-35 | exactly one blank row appended, earlier rows untouched |
| `InvoiceItemsForm.RemoveItemRow` | src/components/InvoiceItemsForm.jsx:36-38 | exactly the rows with another id, each as often as before, as an order-preserving subsequence |
| `InvoiceItemsForm.UpdateItemField` | src/components/InvoiceItemsForm.jsx:39-41 | the rows with the id get the field, everything else unchanged |
| `InvoiceItemsForm.RemoveAddedItemRow` | src/components/InvoiceItemsForm.jsx:30-38 | removing the row just added with a fresh key gives back the previous rows |
| `InvoiceItemsForm.RemoveAfterUpdateField` | src/components/InvoiceItemsForm.jsx:36-41 | removing a row erases any earlier change to it |
| `InvoiceItemsForm.AddItemRowKeepsKeysFresh` | src/components/InvoiceItemsForm.jsx:30-35 | the next key is not in use, and appending its row keeps the keys distinct |
| `InvoiceItemsForm.RemoveItemRowKeepsKeysFresh` | src/components/InvoiceItemsForm.jsx:36-38 | removal keeps the row keys distinct |
| `InvoiceItemsForm.UpdateItemFieldKeepsKeysFresh` | src/components/InvoiceItemsForm.jsx:39-41 | changing a field keeps the row keys distinct |
| `InvoiceItemsForm.MatchingIdsSpec` | src/components/InvoiceItemsForm.jsx:51-55 | the lookup returns nothing iff no product matches, one id iff exactly one does, more iff two do |
| `InvoiceItemsForm.LookupProductSpec` | src/components/InvoiceItemsForm.jsx:51-57 | a product is found iff exactly one product's key matches, and it is that product |
| `InvoiceItemsForm.ProductFor` | src/components/InvoiceItemsForm.jsx:51-67 | a single match is reused with no write; otherwise a product with the trimmed name and the key is inserted under the next id and used; it fails iff that insert is refused; on success the id is that of a product matching the key |
| `InvoiceItemsForm.SaveRow` | src/components/InvoiceItemsForm.jsx:45-76 | the pass gives exactly the stop and database of the reference step `RowStep`; either the row is valid and exactly one item, for a product matching its key, is appended, or the pass stops for the first reason that applies (blank name, no project, needed product insert refused, item insert refused, each iff) and appends nothing; a product is added iff valid, unmatched and accepted |
| `InvoiceItemsForm.SaveRows` | src/components/InvoiceItemsForm.jsx:43-80 | outcome and database equal the recursive reference walk `SaveSpec`, which stops at the first row whose check fails or whose needed insert is refused; moreover rows before the stop are valid, their item insert accepted, and written one item each in order for a product matching the row's key; no later row is written; `onDone` iff all rows saved; each added product was created for one reached row with no single match |
| `InvoiceItemsForm.CreatedStep` | src/components/InvoiceItemsForm.jsx:57-66 | a row's product step adds at most one product, and only for that valid row when no single product matched its key and the insert was accepted |
| `InvoiceItemsForm.WalkStoppedAt` | src/components/InvoiceItemsForm.jsx:45-46 | a walk that wrote rows before i, each for a matching product, and stops at row i for the reason that applies, meets the save's contract |
| `InvoiceItemsForm.WalkCompleted` | src/components/InvoiceItemsForm.jsx:77-79 | a walk that wrote one valid, accepted item per row, in order, each for a matching product, meets the save's contract with `onDone` called |
| `InvoiceItemsForm.ItemsForm.constructor` | src/components/InvoiceItemsForm.jsx:14-17 | the form starts with one blank row |
| `InvoiceItemsForm.ItemsForm.LoadProjects` | src/components/InvoiceItemsForm.jsx:19-28 | the projects are the reply, or none when the query failed |
| `InvoiceItemsForm.ItemsForm.AddRow` | src/components/InvoiceItemsForm.jsx:30-35 | `items` becomes `AddItemRow(items)` under a key no earlier row carries; the keys stay pairwise distinct |
| `InvoiceItemsForm.ItemsForm.RemoveRow` | src/components/InvoiceItemsForm.jsx:36-38 | `items` becomes `RemoveItemRow(items, id)`; the keys stay distinct |
| `InvoiceItemsForm.ItemsForm.UpdateItem` | src/components/InvoiceItemsForm.jsx:39-41 | `items` becomes `UpdateItemField(items, id, f)`; the keys stay distinct |
| `InvoiceItemsForm.ItemsForm.HandleSave` | src/components/InvoiceItemsForm.jsx:43-80 | the save over the form's rows equals the reference walk `SaveSpec` and meets `SaveRows`' properties (matching products, stop at the first failing check or refused insert, `onDone` iff all saved); the form is not changed |
| `AdminProductStats.ProductOptionsSpec` | src/views/AdminProductStats.jsx:38 | each distinct product name exactly once, in first-occurrence order |
| `AdminProductStats.SelectedSpec` | src/views/AdminProductStats.jsx:41-43 | empty with no product chosen; otherwise exactly the rows of that product, as an order-preserving subsequence with their multiplicities |
| `AdminProductStats.Aggregate` | src/views/AdminProductStats.jsx:45-48 | the dictionary has a key for exactly the dates that occur, in insertion order, each mapped to the sum of qty over the rows of that date |
| `AdminProductStats.Entries` | src/views/AdminProductStats.jsx:50-53 | one point per key, in key order, carrying its aggregated qty |
| `AdminProductStats.PointsFor` | src/views/AdminProductStats.jsx:50-53 | one point per date, carrying that date's quantity |
| `AdminProductStats.QtyOnAbsent` | src/views/AdminProductStats.jsx:45-48 | a date no row has gets quantity 0 |
| `AdminProductStats.DatesSnoc` | src/views/AdminProductStats.jsx:45-48 | a further row adds its date as a key only when the date is new |
| `AdminProductStats.SumByDateSnoc` | src/views/AdminProductStats.jsx:46 | a further row adds its qty to the per-date sums exactly once when its date is a key |
| `AdminProductStats.SumByDatesIsTotal` | src/views/AdminProductStats.jsx:45-55 | the per-date sums over the dates that occur add up to the total quantity |
| `AdminProductStats.LineDataAddsUpToTotal` | src/views/AdminProductStats.jsx:50-55 | the line chart's quantities add up to `totalQty` |
| `AdminProductStats.LineDataSpec` | src/views/AdminProductStats.jsx:50-53 | one point per distinct date, no date twice, each with that date's quantity |
| `AdminProductStats.StatsPage.constructor` | src/views/AdminProductStats.jsx:21-23 | no data, no products, nothing chosen |
| `AdminProductStats.StatsPage.LoadData` | src/views/AdminProductStats.jsx:29-39 | a load error leaves data and products unchanged; otherwise both come from the reply |
| `AdminProductStats.StatsPage.SelectProduct` | src/views/AdminProductStats.jsx:66-67 | the select sets the chosen product only |
| `AdminProductStats.StatsPage.Charts` | src/views/AdminProductStats.jsx:41-55 | the line data and the total of the chosen product, which add up to the same amount |
| `Text.Trim` | src/views/DataEntryInvoices.jsx:67 | the trimmed text has no white space at either end and only white space was cut off |
| `Text.BlankIffAllSpace` | src/views/DataEntryInvoices.jsx:67-68 | `!s.trim()` iff every character is white space |
| `Text.ReplaceFirst` | src/views/ProductsView.jsx:82-83 | without an occurrence the text is unchanged, otherwise only the first occurrence is replaced |
| `Text.Before` | src/App.jsx:36 | `split("@")[0]` is the longest prefix without '@' |
| `Text.LowerIdempotent` | src/views/ProductsView.jsx:80 | lower-casing twice is lower-casing once |
| `Text.ContainsIffOccurs` | src/views/InvoicesList.jsx:212-213 | `includes` holds iff the needle occurs at some position |

## Left out

- The hosted database calls and the authentication provider. They are
  foreign calls: the store is a value and each reply is a parameter. Ordering
  of query results (`order(...)`) is the order of the given collections.
- `window.confirm` and `alert` are a boolean input and an outcome. JSX,
  styling, recharts and `toFixed` formatting are presentation only.
- Floating point. Amounts are exact reals. `parseFloat` of non-numeric text
  gives NaN in the code, which makes `diff > 0.01` false and silently skips
  the mismatch prompt; the model has no NaN.
- `Number(curr.qty)` and `Number(i.total_cost || 0)` on non-numeric values.
  Quantities and totals are numbers or missing.
- `toLowerCase` is modelled for Latin A–Z and the basic Cyrillic block only.
  Full Unicode case mapping is not modelled.
- Dates are compared as `YYYY-MM-DD` strings. `new Date` parsing and time
  zones are not modelled.
- `Object.entries` lists integer-like keys first. Dates never are, so the
  model lists keys in insertion order.
- Concurrency: the parallel loads, results arriving after navigation, and
  races between two clients creating the same product.
- The reloads that follow a successful write (`loadData()`, `loadProducts()`)
  are separate calls of the pages' load methods.
- `ilike` treats `%` and `_` in the key as wildcards; the model compares keys
  case-insensitively for equality.
- DataEntryInvoices.DataEntryForm.SaveInvoice: a failed duplicate-number
  query (`existing` null) skips the prompt in the code; the model assumes
  the query succeeds.
- `saving` in the new-invoice form is set and cleared around the insert
  within one action; the model shows it false before and after.
- Deleting products, suppliers and projects, and the supplier and project
  management pages, are CRUD round trips; they are not part of this model.
- The admin navigation page is a single tab; it is not part of this model.
- ProductFor: the product lookup itself is taken to answer. A lookup that
  fails for another reason than several matches (a network or permission
  error) gives `data: null` in the code, and the row then creates a product
  just as for several matches; the model has no reply parameter for it.
