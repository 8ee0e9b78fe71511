# Pizza shop: catalog, invoices and navigation, modelled in Dafny

The pizza shop front end keeps a catalog of menu items and a list of invoices. It builds invoices
line by line, searches and totals them, validates and groups catalog items, and highlights the
current page in a sidebar. This project models that logic:

- `storage.dfy` (module `Storage`): the browser-storage layer `StorageManager`. It is a class with
  three optional fields for the three storage keys: the item list, the invoice list and the invoice
  counter. Each method loads a list, changes it and writes it back. `getNextInvoiceNumber` reads the
  counter, increments it and formats `INV-` plus the counter padded to four digits.
- `lines.dfy` (module `Lines`): the invoice line record and the operations both invoice editors
  share: change a quantity (clamped at 1), remove a line, and sum the line totals.
- `invoice_form_merging.dfy` (module `MergingForm`): the editor in
  `src/components/invoice-management/InvoiceForm.tsx`. Adding an item that already has a line raises
  that line's quantity. The editor computes tax and a total. It is a class over its React state.
- `invoice_form_appending.dfy` (module `AppendingForm`): the editor in `src/components/InvoiceForm.tsx`.
  Adding always appends a line. There is no tax.
- `invoice_management.dfy` (module `InvoiceManagement`): invoices sorted newest first, the search
  filter, and the create-or-update dispatch when saving.
- `invoice_stats.dfy` (module `InvoiceStats`): invoice count, total revenue and average order.
- `item_schema.dfy` (module `ItemSchema`): the zod form schema for catalog items. The schema is the
  same in `ItemManagement.tsx` and `ItemForm.tsx`, so it is modelled once.
- `item_management.dfy` (module `ItemManagement`): grouping items by category (an in-place
  accumulator, so a method with a loop), and the screen's submit, edit and delete handlers over a
  `StorageManager`.
- `app_sidebar.dfy` (module `AppSidebar`): `isActive` and `getNavClass`.
- `wrappers.dfy`, `seqs.dfy`, `text.dfy`: `Option`/`Result`, the JavaScript array methods
  `filter`/`findIndex` over sequences, and the string methods used (ASCII `toLowerCase`, `includes`,
  `startsWith`, `length` in UTF-16 code units, `toString` of a counter, `padStart`).
- `api_types.dfy` (module `ApiTypes`): the record shapes the HTTP client of `src/lib/api.ts` returns.
  They have numeric ids and dates as milliseconds.

Modelling choices:
- Money is `real`, so there is no floating-point rounding. Quantities are `int`.
- An invoice date is the integer `getTime()` of the date.
- JSON serialisation in storage is the identity.
- Fresh ids (`Date.now()`) and the submit date are method parameters.
- `parseFloat` of a price and `toString` of a price are function parameters.
- An absent storage key is `None`.
- A key set to `undefined` in a partial update is `Some(None)`.

Behaviour of the code worth knowing:
- The merging editor does not round line totals, tax or the total to cents; only the display rounds,
  with `toFixed(2)`. `MergingForm.TwoMargheritas` gives two Margheritas at 12.99 with 8.25% tax a
  tax of 2.14335 and a total of 28.12335.
- Deleting a missing id from local storage is a silent no-op. It is idempotent and not an error.
- Updating a missing item id is a silent no-op as well.
- The invoice form's payload has no `id` key, so saving from the form always creates.
- Name and description lengths are JavaScript `length`s, in UTF-16 code units, so a character above
  U+FFFF counts twice.

## Model

| member | source | states |
|---|---|---|
| Storage.DefaultItems | src/lib/storage.ts:107-117 | the default catalog has eight items |
| Storage.DefaultItemIdsUnique | src/lib/storage.ts:108-117 | the default items have pairwise distinct ids |
| Storage.WithId | src/lib/storage.ts:49-52 | the new item has the given id and every field of the argument |
| Storage.Merge | src/lib/storage.ts:62 | `{...item, ...updates}`: each field present in the updates overwrites, each absent field is kept |
| Storage.UpdateFirst | src/lib/storage.ts:58-65 | same length; with an absent id the list is unchanged; otherwise only the first item with the id is merged and all others are unchanged |
| Storage.RemoveItem | src/lib/storage.ts:68 | no longer than the list; every kept item lacks the id and comes from the list; every item without the id is kept |
| Storage.RemoveItemSpec | src/lib/storage.ts:67-70 | after delete no item has the id, every other item keeps its count, and the result is an order-preserving subsequence |
| Storage.RemoveItemIdempotent | src/lib/storage.ts:67-70 | deleting twice equals deleting once |
| Storage.RemoveMissingItem | src/lib/storage.ts:67-70 | deleting an absent id leaves the list unchanged (no error) |
| Storage.Upsert | src/lib/storage.ts:88-99 | an absent id appends the invoice; otherwise the first invoice with the id is replaced in place; length unchanged iff the id was present, else one more; the invoice is in the result |
| Storage.RemoveInvoice | src/lib/storage.ts:102 | no longer than the list; every kept invoice lacks the id and comes from the list; every invoice without the id is kept |
| Storage.RemoveInvoiceSpec | src/lib/storage.ts:101-104 | after delete no invoice has the id, the others keep their counts, and their order is kept |
| Storage.InvoiceNumberRoundTrip | src/lib/storage.ts:85 | the number is "INV-" then at least four digits, and those digits read back as the counter |
| Storage.InvoiceNumberInjective | src/lib/storage.ts:85 | different counters give different invoice numbers |
| Storage.FirstInvoiceNumber | src/lib/storage.ts:83-85 | counter 1 gives "INV-0001" |
| Storage.LargeCounterNotTruncated | src/lib/storage.ts:85 | a counter of 10000 or more is printed in full, without padding or truncation |
| Storage.IssuedDistinct | src/lib/storage.ts:82-86 | the numbers issued for counters 1..n are pairwise distinct |
| Storage.StorageManager.constructor | src/lib/storage.ts:32-35 | empty storage: all three keys absent, nothing issued |
| Storage.StorageManager.CounterValue | src/lib/storage.ts:83 | an absent counter key reads as 0, a present one as its value |
| Storage.StorageManager.CurrentItems | src/lib/storage.ts:40 | an absent items key gives the eight default items, a present one its list |
| Storage.StorageManager.CurrentInvoices | src/lib/storage.ts:75 | an absent invoices key gives the empty list, a present one its list |
| Storage.StorageManager.GetItems | src/lib/storage.ts:38-41 | returns the stored list, or the eight defaults when the key is absent; the result is stored; the other keys are unchanged |
| Storage.StorageManager.SaveItems | src/lib/storage.ts:43-45 | the items key holds the list; the other keys are unchanged |
| Storage.StorageManager.AddItem | src/lib/storage.ts:47-56 | the stored list is the old list plus exactly the new item at the end; the returned item has the given fields and the new id; ids stay unique when the new id is unused |
| Storage.StorageManager.UpdateItem | src/lib/storage.ts:58-65 | the stored list is `UpdateFirst` of the current list |
| Storage.StorageManager.DeleteItem | src/lib/storage.ts:67-70 | the stored list is the current list without the items with the id |
| Storage.StorageManager.GetInvoices | src/lib/storage.ts:73-76 | returns the stored invoices, or the empty list when the key is absent; changes nothing |
| Storage.StorageManager.SaveInvoices | src/lib/storage.ts:78-80 | the invoices key holds the list; the other keys are unchanged |
| Storage.StorageManager.GetNextInvoiceNumber | src/lib/storage.ts:82-86 | an absent counter counts as 0; stores counter+1 and returns its invoice number, which differs from every number issued before |
| Storage.StorageManager.SaveInvoice | src/lib/storage.ts:88-99 | the stored invoices are the upsert of the invoice into the current ones |
| Storage.StorageManager.DeleteInvoice | src/lib/storage.ts:101-104 | the stored invoices are the current ones without the id |
| Storage.StorageManager.GetDefaultItems | src/lib/storage.ts:107-121 | stores the eight defaults and returns them |
| Storage.FreshInstallation | src/lib/storage.ts:38-86 | on fresh storage getItems gives the eight defaults and a second getItems gives them again; there are no invoices; the first two invoice numbers are "INV-0001" and "INV-0002" |
| Lines.Rescaled | src/components/invoice-management/InvoiceForm.tsx:83-89 | quantity becomes max(1, quantity + change) and total = price × new quantity; id, item, name and price are kept |
| Lines.ChangeQuantity | src/components/invoice-management/InvoiceForm.tsx:81-93 | same length; lines with the id are rescaled, all other lines are unchanged |
| Lines.ChangeQuantityKeepsShape | src/components/invoice-management/InvoiceForm.tsx:81-93 | a quantity change keeps every line well formed (quantity ≥ 1, total = price × quantity) and keeps ids and items |
| Lines.DecrementAtOneStays | src/components/invoice-management/InvoiceForm.tsx:84 | decrementing a line at quantity 1 leaves it at 1 |
| Lines.RemoveLines | src/components/invoice-management/InvoiceForm.tsx:96 | no longer than the lines; every kept line lacks the id and comes from the lines; every line without the id is kept |
| Lines.RemoveLinesSpec | src/components/invoice-management/InvoiceForm.tsx:95-97 | removal drops exactly the lines with the id, keeps the others with their counts and in order, and keeps well-formedness |
| Lines.SumTotals | src/components/invoice-management/InvoiceForm.tsx:99 | no lines sum to 0; lines with non-negative totals have a non-negative sum |
| Lines.SumOfWellFormed | src/components/invoice-management/InvoiceForm.tsx:99 | for well-formed lines the sum of totals equals the sum of price × quantity |
| Lines.SumTotalsConcat | src/components/invoice-management/InvoiceForm.tsx:99 | the sum of totals over a concatenation is the sum of the two sums |
| Lines.SumTotalsReplace | src/components/invoice-management/InvoiceForm.tsx:99 | replacing one line changes the sum by the difference of the two totals |
| Lines.ChangeUniqueIsUpdate | src/components/invoice-management/InvoiceForm.tsx:81-93 | with unique line ids, a quantity change rescales exactly the one line with that id |
| Lines.IncrementAddsPrice | src/components/invoice-management/InvoiceForm.tsx:64-65 | incrementing a well-formed line raises the subtotal by that line's price |
| MergingForm.InitialCustomer | src/components/invoice-management/InvoiceForm.tsx:29-33 | each customer field comes from the initial data when it is there, and is '' otherwise |
| MergingForm.LoadLines | src/components/invoice-management/InvoiceForm.tsx:38-47 | one line per initial entry, with its fields, and each line's total recomputed as price × quantity, so the lines are well formed when the quantities are ≥ 1 |
| MergingForm.FindCatalogItem | src/components/invoice-management/InvoiceForm.tsx:60-61 | `items.find`: none iff no catalog item has the id; otherwise the catalog item at the first position carrying the id |
| MergingForm.FindLineForItem | src/components/invoice-management/InvoiceForm.tsx:63 | -1 iff no line has the item; otherwise the index of the first line with the item |
| MergingForm.NewLine | src/components/invoice-management/InvoiceForm.tsx:69-76 | a well-formed line with quantity 1 and price and total equal to the catalog price |
| MergingForm.AddItem | src/components/invoice-management/InvoiceForm.tsx:59-79 | an unknown item leaves the lines unchanged; an item without a line appends its new line; an item with a line gets that line's quantity raised by one |
| MergingForm.AddItemKeepsInvariant | src/components/invoice-management/InvoiceForm.tsx:59-79 | adding keeps the invariant (well formed, unique line ids, at most one line per item); a repeated item raises its line's quantity by one and its total by its price; a new item adds exactly one line |
| MergingForm.ChangeQuantityKeepsInvariant | src/components/invoice-management/InvoiceForm.tsx:81-93 | a quantity change keeps the invariant |
| MergingForm.RemoveLinesKeepsInvariant | src/components/invoice-management/InvoiceForm.tsx:95-97 | removal keeps the invariant |
| MergingForm.PayloadLines | src/components/invoice-management/InvoiceForm.tsx:119-123 | one payload entry per line, in order, with its itemId, quantity and price |
| MergingForm.TaxAmount | src/components/invoice-management/InvoiceForm.tsx:100 | tax × 100 = subtotal × rate (a percentage, unrounded); a zero rate or subtotal gives no tax |
| MergingForm.Submit | src/components/invoice-management/InvoiceForm.tsx:99-101 | the customer fields, with an empty phone or address made absent; the entries; subtotal = sum of line totals; taxAmount = subtotal × taxRate / 100; total = subtotal + taxAmount |
| MergingForm.SubmittedSubtotalMatchesEntries | src/components/invoice-management/InvoiceForm.tsx:111-131 | for well-formed lines the submitted subtotal equals the sum of price × quantity over the submitted entries |
| MergingForm.PayloadSumOfLines | src/components/invoice-management/InvoiceForm.tsx:119-123 | the entries' price × quantity sum equals that of the lines |
| MergingForm.SubmitEnabled | src/components/invoice-management/InvoiceForm.tsx:301 | the button is disabled exactly when there are no lines or the customer name is empty |
| MergingForm.SubmitEnabledAfterAdd | src/components/invoice-management/InvoiceForm.tsx:301 | after adding a catalog item, submit is enabled iff the customer name is non-empty |
| MergingForm.TwoMargheritas | src/components/invoice-management/InvoiceForm.tsx:99-101 | two lines' worth of 12.99 at 8.25% give subtotal 25.98, tax 2.14335, total 28.12335 (no rounding) |
| MergingForm.InvoiceForm.constructor | src/components/invoice-management/InvoiceForm.tsx:29-48 | customer fields default to '', tax rate 8.25; lines empty or loaded from the initial data |
| MergingForm.InvoiceForm.HandleQuantityChange | src/components/invoice-management/InvoiceForm.tsx:81-93 | the new lines are `ChangeQuantity` of the old; the invariant is kept; nothing else changes |
| MergingForm.InvoiceForm.HandleAddItem | src/components/invoice-management/InvoiceForm.tsx:59-79 | the new lines are `AddItem` of the old; the invariant is kept when the new key is unused; nothing else changes |
| MergingForm.InvoiceForm.HandleRemoveItem | src/components/invoice-management/InvoiceForm.tsx:95-97 | the new lines are the old ones without the id; the invariant is kept; nothing else changes |
| MergingForm.InvoiceForm.HandleSubmit | src/components/invoice-management/InvoiceForm.tsx:111-131 | returns the payload `Submit` computes from the current state |
| AppendingForm.LoadLines | src/components/InvoiceForm.tsx:33-42 | one line per initial entry, with its fields, and the total copied as given |
| AppendingForm.LoadedTotalIsNotRecomputed | src/components/InvoiceForm.tsx:40 | a loaded entry of quantity 2 with a one-unit total stays inconsistent (total ≠ price × quantity) |
| AppendingForm.ChangeQuantityRepairsTotals | src/components/InvoiceForm.tsx:71-83 | a quantity change makes the changed lines well formed and leaves the other lines exactly as they were |
| AppendingForm.AddItem | src/components/InvoiceForm.tsx:54-69 | an unknown item leaves the lines unchanged; a known item always appends one new line with quantity 1 and total = price |
| AppendingForm.AddItemTwiceDuplicates | src/components/InvoiceForm.tsx:58-68 | adding the same item twice gives two lines for it |
| AppendingForm.AddItemKeepsShape | src/components/InvoiceForm.tsx:54-69 | adding keeps the lines well formed, and keeps line ids unique when the new key is unused |
| AppendingForm.Submit | src/components/InvoiceForm.tsx:93-109 | name, phone and date as given, one entry per line with its itemId, quantity and price, in order, and total = sum of line totals |
| AppendingForm.SubmitEnabled | src/components/InvoiceForm.tsx:203 | the button is disabled exactly when there are no lines or the customer name is empty |
| AppendingForm.SubmitEnabledAfterAdd | src/components/InvoiceForm.tsx:203 | after adding a catalog item, submit is enabled iff the customer name is non-empty |
| AppendingForm.InvoiceForm.constructor | src/components/InvoiceForm.tsx:28-43 | name and phone from the initial data or ''; lines empty or loaded |
| AppendingForm.InvoiceForm.HandleAddItem | src/components/InvoiceForm.tsx:54-69 | the new lines are `AddItem` of the old; nothing else changes |
| AppendingForm.InvoiceForm.HandleQuantityChange | src/components/InvoiceForm.tsx:71-83 | the new lines are `ChangeQuantity` of the old; nothing else changes |
| AppendingForm.InvoiceForm.HandleRemoveItem | src/components/InvoiceForm.tsx:85-87 | the new lines are the old ones without the id; nothing else changes |
| AppendingForm.InvoiceForm.CalculateTotal | src/components/InvoiceForm.tsx:89-91 | the sum of line totals, which is the sum of price × quantity when the lines are well formed |
| AppendingForm.InvoiceForm.HandleSubmit | src/components/InvoiceForm.tsx:93-109 | returns the payload `Submit` computes from the current state |
| InvoiceManagement.SortNewestFirst | src/components/InvoiceManagement.tsx:26-28 | the result is ordered by date, newest first, and is a permutation of the input |
| InvoiceManagement.InsertAfterEqual | src/components/InvoiceManagement.tsx:26-28 | inserting into a newest-first list keeps it newest first and adds exactly the one invoice |
| InvoiceManagement.Matches | src/components/InvoiceManagement.tsx:84-88 | true iff the lowercased number or name contains the lowercased term, or the phone is present and contains the term as typed |
| InvoiceManagement.FilterInvoices | src/components/InvoiceManagement.tsx:84-88 | no longer than the list; holds only listed invoices that match; holds every listed invoice that matches |
| InvoiceManagement.FilterInvoicesSpec | src/components/InvoiceManagement.tsx:84-88 | every kept invoice matches, every matching invoice keeps its count, and the result is an order-preserving subsequence |
| InvoiceManagement.EmptyTermKeepsAll | src/components/InvoiceManagement.tsx:84-88 | the empty term keeps every invoice |
| InvoiceManagement.PhoneSearchIsCaseSensitive | src/components/InvoiceManagement.tsx:87 | a phone match is exact: a term differing from the phone only in letter case does not match through the phone |
| InvoiceManagement.EmptyStateIffNoMatch | src/components/InvoiceManagement.tsx:130-131 | the empty state shows iff no invoice matches |
| InvoiceManagement.FilteredStaysNewestFirst | src/components/InvoiceManagement.tsx:84-88 | filtering a newest-first list leaves it newest first |
| InvoiceManagement.NewestFirstOrdered | src/components/InvoiceManagement.tsx:26-28 | in a newest-first list every earlier entry is at least as new as every later one |
| InvoiceManagement.Shown | src/components/InvoiceManagement.tsx:23-88 | the shown list is newest first, holds only matching loaded invoices, and every matching invoice as often as it was loaded |
| InvoiceManagement.Dispatch | src/components/InvoiceManagement.tsx:38-44 | update with the given id iff the `id` key is present, create otherwise; the invoice is passed on unchanged |
| InvoiceManagement.RequestOf | src/components/InvoiceManagement.tsx:40-41 | `invoice.id` is read iff the object has an `id` key; the object is passed on unchanged |
| InvoiceManagement.FormSaveAlwaysCreates | src/components/invoice-management/InvoiceForm.tsx:114-130 | the object literal the form passes to `onSave` has no `id` key, so `handleInvoiceSaved` creates it, with that payload |
| InvoiceStats.TotalRevenue | src/components/invoice-management/InvoiceStats.tsx:10 | no invoices give revenue 0; one invoice gives its total |
| InvoiceStats.ComputeStats | src/components/invoice-management/InvoiceStats.tsx:10-21 | count = list length; revenue = sum of totals; empty list gives revenue 0 and average 0; otherwise average × count = revenue |
| InvoiceStats.RevenueConcat | src/components/invoice-management/InvoiceStats.tsx:10 | the revenue of a concatenation is the sum of the revenues |
| InvoiceStats.RevenuePermutation | src/components/invoice-management/InvoiceStats.tsx:10 | the revenue does not depend on the order of the invoices |
| InvoiceStats.StatsIgnoreSorting | src/components/invoice-management/InvoiceStats.tsx:10-11 | the figures for the sorted list equal those for the loaded list |
| InvoiceStats.AverageBounded | src/components/invoice-management/InvoiceStats.tsx:11 | when every total lies in [lo, hi], so does the average order |
| InvoiceStats.RevenueBounds | src/components/invoice-management/InvoiceStats.tsx:10 | totals within [lo, hi] give revenue within [lo × count, hi × count] |
| ItemSchema.NameIssues | src/components/ItemManagement.tsx:23-25 | no issue iff 2 ≤ UTF-16 length ≤ 50; otherwise exactly the too-short or the too-long issue |
| ItemSchema.FiftyCharacterNameAccepted | src/components/item-management/ItemForm.tsx:11-13 | a name of UTF-16 length 50 is accepted, although the message says "less than 50" |
| ItemSchema.AstralCharacterCountsTwice | src/components/ItemManagement.tsx:23-25 | a single character above U+FFFF is two code units long, so it passes the minimum of 2 |
| ItemSchema.ParseCategory | src/components/ItemManagement.tsx:26 | accepted iff the text is pizza, topping, beverage or other, and the category reads back as that text |
| ItemSchema.CategoryRoundTrip | src/components/item-management/ItemForm.tsx:14 | every category's text parses back to it |
| ItemSchema.PriceIssues | src/components/ItemManagement.tsx:27-34 | no issue iff the text parses to a number > 0 |
| ItemSchema.DescriptionIssues | src/components/ItemManagement.tsx:35 | no issue iff the description is absent or at most 200 UTF-16 code units |
| ItemSchema.Validate | src/components/item-management/ItemForm.tsx:10-24 | success iff all four rules hold, with the values carried over and the parsed price; on failure the issue list is non-empty and names exactly the rules that fail, a rejected category with the text received |
| ItemManagement.CategoryOrder | src/components/ItemManagement.tsx:168-174 | `Object.keys(groupedItems)`: no more keys than items, and no keys iff no items |
| ItemManagement.CategoryOrderDistinct | src/components/ItemManagement.tsx:168-174 | each category is a key of the grouping once |
| ItemManagement.CategoryOrderSpec | src/components/ItemManagement.tsx:168-174 | every item's category is a key, every key is some item's category, and there are no keys iff there are no items |
| ItemManagement.OfCategoryIsFilter | src/components/ItemManagement.tsx:168-174 | the list the accumulator builds for a category is the input filtered by that category |
| ItemManagement.GroupSizesAddUp | src/components/ItemManagement.tsx:168-174 | the group sizes add up to the number of items |
| ItemManagement.GroupByCategory | src/components/ItemManagement.tsx:168-174 | keys in first-appearance order; each group is exactly its category's items in input order; every item is in the group of its category; no groups iff no items |
| ItemManagement.Prefill | src/components/ItemManagement.tsx:118-123 | the form gets the item's name, a category text that parses back to the item's category, the shown price, and the description or '' when there is none |
| ItemManagement.UpdatesFor | src/components/ItemManagement.tsx:81-86 | merging these updates into any item keeps its id and takes every other field from the form, the description included even when absent |
| ItemManagement.FieldsFor | src/components/ItemManagement.tsx:92-97 | `addItem` of these fields with any id gives the item with that id and the form's fields |
| ItemManagement.UnchangedEditRoundTrip | src/components/ItemManagement.tsx:116-125 | a valid item opened for editing and saved unchanged validates, and the merge gives back the item, with an absent description now '' |
| ItemManagement.SavedList | src/components/ItemManagement.tsx:80-102 | adding appends, after the unchanged list, the item with the fresh id and the form's fields; editing keeps the length, leaves the list unchanged when the edited id is gone, and otherwise replaces only the first item with that id by it with the form's fields and its own id |
| ItemManagement.ItemManagementView.constructor | src/components/ItemManagement.tsx:41-55 | no items, no item being edited, dialog closed, default form values |
| ItemManagement.ItemManagementView.LoadItems | src/components/ItemManagement.tsx:61-64 | the screen shows what `getItems` returns; the rest of the screen is unchanged |
| ItemManagement.ItemManagementView.ResetForm | src/components/ItemManagement.tsx:66-74 | default form values and no item being edited |
| ItemManagement.ItemManagementView.HandleSubmit | src/components/ItemManagement.tsx:76-114 | runs on the values the schema accepted from the form; editing calls updateItem with the edited item's id and adding calls addItem; then the list is reloaded, the dialog closed and the form reset; the invoices, the counter and the issued numbers are unchanged |
| ItemManagement.ItemManagementView.HandleEdit | src/components/ItemManagement.tsx:116-125 | the item is the one being edited, the form is prefilled from it, the dialog is open |
| ItemManagement.ItemManagementView.HandleDelete | src/components/ItemManagement.tsx:127-142 | deletes the item's id from storage and shows the reloaded list; the invoices, the counter and the issued numbers are unchanged |
| AppSidebar.IsActive | src/components/AppSidebar.tsx:76-81 | "/" is active iff the pathname is exactly "/"; any other path is active iff it is a prefix of the pathname |
| AppSidebar.NavClass | src/components/AppSidebar.tsx:83-88 | the highlighted class iff the entry is active, the plain class iff it is not |
| AppSidebar.EachEntryActiveOnItsUrl | src/components/AppSidebar.tsx:29-81 | every sidebar entry is highlighted when the pathname is its own url |
| AppSidebar.PrefixMatching | src/components/AppSidebar.tsx:80 | "/items" is active on "/items/5" and on "/itemsx" but not on "/item"; the dashboard is not active on "/items" |
| AppSidebar.NotBothActive | src/components/AppSidebar.tsx:76-81 | two non-root entries whose urls differ at some position are never active together |
| AppSidebar.AtMostOneActive | src/components/AppSidebar.tsx:29-81 | whatever the pathname, at most one of the six entries is highlighted |
| Seqs.Filter | src/lib/storage.ts:68 | `filter`: no longer than the input, holds only input elements that pass, and holds every input element that passes |
| Seqs.FindIndex | src/lib/storage.ts:60 | `findIndex`: -1 iff nothing passes, otherwise the first index that passes |
| Seqs.FilterIsSubsequence | src/lib/storage.ts:68 | `filter` keeps the order of what it keeps |
| Seqs.FilterCount | src/lib/storage.ts:68 | `filter` keeps every passing element as often as it occurs and drops every failing one |
| Seqs.FilterIdempotent | src/lib/storage.ts:68 | filtering twice by one predicate equals filtering once |
| Seqs.FilterEmptyIff | src/components/InvoiceManagement.tsx:84-88 | the filter is empty iff no element passes |
| Text.Lower | src/components/InvoiceManagement.tsx:85-86 | ASCII `toLowerCase`: same length, upper-case letters mapped to lower case, everything else kept |
| Text.StartsWith | src/components/AppSidebar.tsx:80 | `startsWith` holds iff the prefix is no longer than the string and equals its beginning |
| Text.Includes | src/components/InvoiceManagement.tsx:85-87 | `includes`: the empty needle is always found, and a found needle is no longer than the string |
| Text.IncludesIffOccurs | src/components/InvoiceManagement.tsx:85-87 | `includes` holds iff the needle occurs at some position |
| Text.IncludesEmpty | src/components/InvoiceManagement.tsx:85-87 | every string includes the empty string |
| Text.Utf16Length | src/components/ItemManagement.tsx:23-25 | `length`: between the character count and twice it, and equal to it when every character lies in the Basic Multilingual Plane |
| Text.Decimal | src/lib/storage.ts:85 | `toString` of a counter: at least one digit, all digits, no leading zero above 9 |
| Text.DecimalRoundTrip | src/lib/storage.ts:83-85 | reading the printed digits back gives the counter |
| Text.PadStart | src/lib/storage.ts:85 | `padStart`: length max(width, original), ends with the original, padded only with the fill character |
| Text.ZeroPaddedValue | src/lib/storage.ts:85 | leading zeros do not change the value of a digit string |

## Left out

- `src/lib/api.ts` (the HTTP client) is not part of this model. It is network I/O. Only the record
  shapes it returns are kept, in `ApiTypes`.
- Dashboard figures and all rendering are not modelled: React hooks, dialogs, toasts, the printable
  invoice, `window.print` and `setTimeout`. Icons, titles and descriptions in the sidebar only render.
- Errors caught by `try`/`catch` and turned into toasts are not modelled. In the code the storage
  calls can throw: `localStorage.setItem` when the quota is exceeded or storage is unavailable
  (src/lib/storage.ts:44, 79, 84), and `JSON.parse` on a stored value that is not JSON
  (src/lib/storage.ts:40, 75). The model's storage methods always succeed.
- ItemManagement.ItemManagementView.HandleSubmit, ItemManagement.ItemManagementView.HandleDelete:
  only the success path is modelled. The catch branches (src/components/ItemManagement.tsx:107-113,
  135-141) show an error toast. There the list is not reloaded, and after a failed submit the dialog
  stays open and the form keeps its values.
- Storage.InvoiceNumber: has no contract of its own, because stating one makes the proofs that use it
  too costly. Its meaning is stated by Storage.InvoiceNumberRoundTrip, Storage.InvoiceNumberInjective,
  Storage.FirstInvoiceNumber and Storage.LargeCounterNotTruncated.
- IEEE doubles, `toFixed(2)` display rounding and `parseFloat`/`parseInt` prefix parsing and NaN are
  not modelled. Money is `real`, and price parsing is a function parameter returning `None` for NaN.
- The stored counter is always a value this code wrote. A counter key holding text that `parseInt`
  does not read as a number (NaN) is not modelled.
- `Date.now()` ids and `new Date().toISOString()` are parameters, so their clock values, and whether
  two calls in one millisecond clash, are not modelled.
- Storage.StorageManager.AddItem, MergingForm.InvoiceForm.HandleAddItem: uniqueness of ids is
  promised only when the fresh id is not already in use. The code relies on the clock for that.
- Full Unicode `toLowerCase` is not modelled. Lowercasing is ASCII only.
- The tax-rate input handler is not modelled. It stores `parseFloat(value) || 0`, so a cleared or
  non-numeric input gives a rate of 0 (src/components/invoice-management/InvoiceForm.tsx:170).
- The category select in the merging editor shows `groupedItems` of the fetched catalog. It is the
  same reduction as `ItemManagement.GroupByCategory` and is not modelled a second time.
- MergingForm.InvoiceForm.HandleAddItem: a repeated item calls `handleQuantityChange`, which uses the
  React updater form. The model applies the updates in order on the current state. Stale closures
  and batching between renders are not modelled.
- AppendingForm.LoadLines: a loaded entry without a `total` field would give `undefined`. The model
  takes the total as given.
- InvoiceManagement.SortNewestFirst: the contract states the date order and the permutation, not the
  relative order of invoices with equal dates. Invalid dates (NaN from `getTime`) are not modelled.
- Storage.LargeCounterNotTruncated, Storage.IssuedDistinct, Storage.InvoiceNumberInjective: the
  counter is an unbounded integer. In the code it is a JavaScript number, so these hold only for
  counters below 2^53. Above that, `counter + 1` can give the same number again, and from 10^21
  `toString` switches to exponent notation.
