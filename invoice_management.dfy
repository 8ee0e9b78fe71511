/** The invoice list of src/components/InvoiceManagement.tsx: invoices are shown newest first and
    narrowed by a search term; saving dispatches to update or create. */
module InvoiceManagement {
  import opened Wrappers
  import opened Seqs
  import opened Text
  import opened ApiTypes
  import MergingForm
  import Lines

  /** Adjacent entries are ordered by date, newest first. */
  predicate NewestFirst(s: seq<Invoice>) {
    forall i :: 0 <= i < |s| - 1 ==> s[i].date >= s[i + 1].date
  }

  /** The comparator `(a, b) => b.date - a.date` given to `Array.prototype.sort`, as an insertion
      sort; the contract fixes the order of invoices with different dates only. */
  function SortNewestFirst(s: seq<Invoice>): (r: seq<Invoice>)
    ensures NewestFirst(r)
    ensures multiset(r) == multiset(s)
    ensures |r| == |s|
  {
    if s == [] then []
    else
      var t := SortNewestFirst(s[..|s| - 1]);
      assert s == s[..|s| - 1] + [s[|s| - 1]];
      InsertAfterEqual(s[|s| - 1], t)
  }

  /** Places `x` in front of the trailing entries that are strictly older than it, right after the
      last entry that is at least as new. */
  function InsertAfterEqual(x: Invoice, s: seq<Invoice>): (r: seq<Invoice>)
    requires NewestFirst(s)
    ensures NewestFirst(r)
    ensures multiset(r) == multiset(s) + multiset{x}
    ensures |r| == |s| + 1
    ensures r != [] && (r[|r| - 1] == x || (s != [] && r[|r| - 1] == s[|s| - 1]))
    decreases |s|
  {
    if s == [] then [x]
    else if s[|s| - 1].date >= x.date then s + [x]
    else
      var init := s[..|s| - 1];
      var t := InsertAfterEqual(x, init);
      assert s == init + [s[|s| - 1]];
      t + [s[|s| - 1]]
  }

  /** The search predicate: the number or the customer name contains the term, both lowercased, or
      the phone, when there is one, contains the term exactly as typed. */
  function Matches(inv: Invoice, term: string): (b: bool)
    ensures b <==>
      (exists i :: OccursAt(Lower(inv.invoiceNumber), Lower(term), i)) ||
      (exists i :: OccursAt(Lower(inv.customerName), Lower(term), i)) ||
      (inv.customerPhone.Some? && exists i :: OccursAt(inv.customerPhone.value, term, i))
  {
    IncludesIffOccurs(Lower(inv.invoiceNumber), Lower(term));
    IncludesIffOccurs(Lower(inv.customerName), Lower(term));
    IncludesIffOccurs(inv.customerPhone.GetOr(""), term);
    Includes(Lower(inv.invoiceNumber), Lower(term)) ||
    Includes(Lower(inv.customerName), Lower(term)) ||
    (inv.customerPhone.Some? && Includes(inv.customerPhone.value, term))
  }

  function MatchesTerm(term: string): Invoice -> bool {
    (inv: Invoice) => Matches(inv, term)
  }

  /** `filteredInvoices`. */
  function FilterInvoices(s: seq<Invoice>, term: string): (r: seq<Invoice>)
    ensures |r| <= |s|
    ensures forall i :: 0 <= i < |r| ==> r[i] in s && Matches(r[i], term)
    ensures forall i :: 0 <= i < |s| && Matches(s[i], term) ==> s[i] in r
  {
    Filter(s, MatchesTerm(term))
  }

  /** The filtered list keeps exactly the matching invoices, each as often as it occurs, in order. */
  lemma FilterInvoicesSpec(s: seq<Invoice>, term: string)
    ensures forall i :: 0 <= i < |FilterInvoices(s, term)| ==> Matches(FilterInvoices(s, term)[i], term)
    ensures forall x: Invoice :: Matches(x, term) ==> multiset(FilterInvoices(s, term))[x] == multiset(s)[x]
    ensures IsSubsequence(FilterInvoices(s, term), s)
  {
    FilterIsSubsequence(s, MatchesTerm(term));
    forall x: Invoice | Matches(x, term) ensures multiset(FilterInvoices(s, term))[x] == multiset(s)[x] {
      FilterCount(s, MatchesTerm(term), x);
    }
  }

  /** An empty search keeps every invoice. */
  lemma EmptyTermKeepsAll(s: seq<Invoice>)
    ensures FilterInvoices(s, "") == s
  {
    forall i | 0 <= i < |s| ensures Matches(s[i], "") {
      IncludesEmpty(Lower(s[i].invoiceNumber));
    }
    FilterAllPass(s, MatchesTerm(""));
  }

  /** The phone is searched case-sensitively: an uppercase term misses a lowercase phone entry while
      the same term in lowercase finds it. */
  lemma PhoneSearchIsCaseSensitive()
    ensures
      var inv := Invoice(1, "1", "1", Some("ext"), 0, [], 0.0);
      !Matches(inv, "EXT") && Matches(inv, "ext")
  {
    var inv := Invoice(1, "1", "1", Some("ext"), 0, [], 0.0);
    assert Lower("EXT") == "ext";
    assert OccursAt(inv.customerPhone.value, "ext", 0);
    assert !StartsWith("ext", "EXT");
    assert !StartsWith("1", "ext") && !StartsWith("", "ext");
    assert !StartsWith("xt", "EXT") && !StartsWith("t", "EXT") && !StartsWith("", "EXT");
    assert "ext"[1..] == "xt" && "xt"[1..] == "t" && "t"[1..] == "" && "1"[1..] == "";
  }

  /** The empty state is shown exactly when no invoice matches. */
  lemma EmptyStateIffNoMatch(s: seq<Invoice>, term: string)
    ensures |FilterInvoices(s, term)| == 0 <==> forall i :: 0 <= i < |s| ==> !Matches(s[i], term)
  {
    FilterEmptyIff(s, MatchesTerm(term));
  }

  /** Filtering the sorted list keeps it newest first. */
  lemma FilteredStaysNewestFirst(s: seq<Invoice>, term: string)
    requires NewestFirst(s)
    ensures NewestFirst(FilterInvoices(s, term))
  {
    FilterKeepsNewestFirst(s, MatchesTerm(term));
  }

  lemma {:induction false} FilterKeepsNewestFirst(s: seq<Invoice>, p: Invoice -> bool)
    requires NewestFirst(s)
    ensures NewestFirst(Filter(s, p))
    ensures s != [] ==> forall i :: 0 <= i < |Filter(s, p)| ==> Filter(s, p)[i].date >= s[|s| - 1].date
    decreases |s|
  {
    if s != [] {
      var init := s[..|s| - 1];
      var x := s[|s| - 1];
      assert NewestFirst(init);
      FilterKeepsNewestFirst(init, p);
      var f := Filter(init, p);
      assert init != [] ==> init[|init| - 1].date >= x.date;
      assert forall i :: 0 <= i < |f| ==> f[i].date >= x.date;
      if p(x) {
        assert Filter(s, p) == f + [x];
      } else {
        assert Filter(s, p) == f;
      }
    }
  }

  lemma {:induction false} NewestFirstOrdered(s: seq<Invoice>, i: int, j: int)
    requires NewestFirst(s) && 0 <= i <= j < |s|
    ensures s[i].date >= s[j].date
    decreases j - i
  {
    if i < j {
      NewestFirstOrdered(s, i + 1, j);
    }
  }

  /** `loadInvoices` followed by the filter: the list shown is the matching invoices, newest first. */
  function Shown(loaded: seq<Invoice>, term: string): (r: seq<Invoice>)
    ensures NewestFirst(r)
    ensures forall i :: 0 <= i < |r| ==> Matches(r[i], term) && r[i] in loaded
    ensures forall x: Invoice :: Matches(x, term) ==> multiset(r)[x] == multiset(loaded)[x]
  {
    var sorted := SortNewestFirst(loaded);
    FilteredStaysNewestFirst(sorted, term);
    FilterInvoicesSpec(sorted, term);
    forall i | 0 <= i < |FilterInvoices(sorted, term)| ensures FilterInvoices(sorted, term)[i] in loaded {
      assert FilterInvoices(sorted, term)[i] in multiset(sorted);
    }
    FilterInvoices(sorted, term)
  }

  /** What `handleInvoiceSaved` receives: an invoice whose `id` key may be absent. */
  datatype SaveRequest = SaveRequest(id: Option<int>, invoice: MergingForm.Payload)

  datatype SaveAction = Update(id: int, invoice: MergingForm.Payload) | Create(invoice: MergingForm.Payload)

  /** `'id' in invoice` selects update with that id, and create otherwise, sending the same invoice. */
  function Dispatch(req: SaveRequest): (a: SaveAction)
    ensures a.Update? <==> req.id.Some?
    ensures a.Update? ==> a.id == req.id.value
    ensures a.invoice == req.invoice
  {
    match req.id
    case Some(id) => Update(id, req.invoice)
    case None => Create(req.invoice)
  }

  /** The keys of the object literal the form's `handleSubmit` passes to `onSave`. A key whose value is
      `undefined` (an empty phone or address) is still a key of the object. */
  const FormPayloadKeys: set<string> :=
    {"customerName", "customerPhone", "customerAddress", "date", "items", "subtotal", "taxRate", "taxAmount", "total"}

  /** What `handleInvoiceSaved` receives when it is given an object with the keys `keys`: `invoice.id`
      (here `idValue`) is read only when `'id' in invoice`. */
  function RequestOf(keys: set<string>, idValue: int, p: MergingForm.Payload): (r: SaveRequest)
    ensures r.id.Some? <==> "id" in keys
    ensures r.id.Some? ==> r.id.value == idValue
    ensures r.invoice == p
  {
    SaveRequest(if "id" in keys then Some(idValue) else None, p)
  }

  /** The form's payload has no `id` key, so saving from the form always creates, with the payload. */
  lemma FormSaveAlwaysCreates(c: MergingForm.Customer, ls: seq<Lines.Line>, taxRate: real, date: string, idValue: int)
    ensures
      var p := MergingForm.Submit(c, ls, taxRate, date);
      Dispatch(RequestOf(FormPayloadKeys, idValue, p)) == Create(p)
  {
    assert "id" !in FormPayloadKeys;
  }
}
