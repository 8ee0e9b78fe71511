/** The invoice form of src/components/invoice-management/InvoiceForm.tsx: picking an item that
    already has a line raises that line's quantity instead of adding a second line, and the form
    computes tax on the subtotal. */
module MergingForm {
  import opened Wrappers
  import opened Seqs
  import opened Lines
  import ApiTypes
  import Storage

  datatype Customer = Customer(name: string, phone: string, address: string)

  /** A line of the invoice passed in as `initialData`. */
  datatype InitialLine = InitialLine(id: int, itemId: int, itemName: string, quantity: int, price: real, total: real)

  datatype InitialData = InitialData(
    customerName: Option<string>, customerPhone: Option<string>, customerAddress: Option<string>,
    items: seq<InitialLine>)

  datatype PayloadLine = PayloadLine(itemId: int, quantity: int, price: real)

  /** What `handleSubmit` passes to `onSave`; `date` is the injected `new Date().toISOString()`. */
  datatype Payload = Payload(
    customerName: string, customerPhone: Option<string>, customerAddress: Option<string>, date: string,
    items: seq<PayloadLine>, subtotal: real, taxRate: real, taxAmount: real, total: real)

  const DefaultTaxRate: real := 8.25

  /** The customer fields start from `initialData`, with '' for what is absent. */
  function InitialCustomer(init: Option<InitialData>): (c: Customer)
    ensures init.None? ==> c == Customer("", "", "")
    ensures init.Some? && init.value.customerName.Some? ==> c.name == init.value.customerName.value
    ensures init.Some? && init.value.customerName.None? ==> c.name == ""
    ensures init.Some? && init.value.customerPhone.Some? ==> c.phone == init.value.customerPhone.value
    ensures init.Some? && init.value.customerPhone.None? ==> c.phone == ""
    ensures init.Some? && init.value.customerAddress.Some? ==> c.address == init.value.customerAddress.value
    ensures init.Some? && init.value.customerAddress.None? ==> c.address == ""
  {
    match init
    case None => Customer("", "", "")
    case Some(d) => Customer(d.customerName.GetOr(""), d.customerPhone.GetOr(""), d.customerAddress.GetOr(""))
  }

  /** Loading `initialData`: each line keeps its id, item, name, quantity and price, and its total is
      recomputed as price times quantity. */
  function LoadLines(init: seq<InitialLine>): (r: seq<Line>)
    ensures |r| == |init|
    ensures forall i :: 0 <= i < |init| ==>
      r[i].id == init[i].id && r[i].itemId == init[i].itemId && r[i].name == init[i].itemName &&
      r[i].quantity == init[i].quantity && r[i].price == init[i].price &&
      r[i].total == init[i].price * init[i].quantity as real
    ensures (forall i :: 0 <= i < |init| ==> init[i].quantity >= 1) ==> AllWellFormed(r)
  {
    seq(|init|, i requires 0 <= i < |init| =>
      Line(init[i].id, init[i].itemId, init[i].itemName, init[i].quantity, init[i].price, init[i].price * init[i].quantity as real))
  }

  function CatalogHasId(id: int): ApiTypes.Item -> bool {
    (it: ApiTypes.Item) => it.id == id
  }

  function LineHasItem(itemId: int): Line -> bool {
    (l: Line) => l.itemId == itemId
  }

  /** `items.find(i => i.id === id)`: the first catalog item with the id. */
  function FindCatalogItem(catalog: seq<ApiTypes.Item>, id: int): (r: Option<ApiTypes.Item>)
    ensures r.None? <==> forall i :: 0 <= i < |catalog| ==> catalog[i].id != id
    ensures r.Some? ==> r.value in catalog && r.value.id == id
    ensures r.Some? ==>
      exists k :: 0 <= k < |catalog| && catalog[k] == r.value && forall i :: 0 <= i < k ==> catalog[i].id != id
  {
    var k := FindIndex(catalog, CatalogHasId(id));
    if k == -1 then None else Some(catalog[k])
  }

  /** `selectedItems.find(i => i.itemId === itemId)`: the index of the first line for the item. */
  function FindLineForItem(ls: seq<Line>, itemId: int): (k: int)
    ensures -1 <= k < |ls|
    ensures k == -1 <==> forall i :: 0 <= i < |ls| ==> ls[i].itemId != itemId
    ensures 0 <= k ==> ls[k].itemId == itemId && forall i :: 0 <= i < k ==> ls[i].itemId != itemId
  {
    FindIndex(ls, LineHasItem(itemId))
  }

  /** The line added for a catalog item picked for the first time. */
  function NewLine(item: ApiTypes.Item, freshId: int): (l: Line)
    ensures WellFormed(l) && l.quantity == 1 && l.price == item.price && l.total == item.price
    ensures l.id == freshId && l.itemId == item.id && l.name == item.name
  {
    Line(freshId, item.id, item.name, 1, item.price, item.price)
  }

  /** `handleAddItem(itemId)`: an unknown item leaves the lines as they are; an item that already has
      a line raises that line's quantity by one; any other item gets a new line at the end. */
  function AddItem(catalog: seq<ApiTypes.Item>, ls: seq<Line>, itemId: int, freshId: int): (r: seq<Line>)
    ensures FindCatalogItem(catalog, itemId).None? ==> r == ls
    ensures FindCatalogItem(catalog, itemId).Some? && FindLineForItem(ls, itemId) == -1 ==>
      r == ls + [NewLine(FindCatalogItem(catalog, itemId).value, freshId)]
    ensures FindCatalogItem(catalog, itemId).Some? && FindLineForItem(ls, itemId) != -1 ==>
      r == ChangeQuantity(ls, ls[FindLineForItem(ls, itemId)].id, 1)
  {
    match FindCatalogItem(catalog, itemId)
    case None => ls
    case Some(item) =>
      var k := FindLineForItem(ls, item.id);
      if k != -1 then ChangeQuantity(ls, ls[k].id, 1) else ls + [NewLine(item, freshId)]
  }

  /** No item has two lines. */
  predicate OneLinePerItem(ls: seq<Line>) {
    forall i, j :: 0 <= i < j < |ls| ==> ls[i].itemId != ls[j].itemId
  }

  /** The state invariant of this form: every line well formed, one key per line, one line per item. */
  predicate Invariant(ls: seq<Line>) {
    AllWellFormed(ls) && UniqueLineIds(ls) && OneLinePerItem(ls)
  }

  /** Adding an item keeps the invariant; a repeated item raises its line's quantity by one and the
      number of lines stays the same; a new item adds exactly one line. */
  lemma AddItemKeepsInvariant(catalog: seq<ApiTypes.Item>, ls: seq<Line>, itemId: int, freshId: int)
    requires Invariant(ls) && LineIdAbsent(ls, freshId)
    ensures Invariant(AddItem(catalog, ls, itemId, freshId))
    ensures FindCatalogItem(catalog, itemId).Some? && FindLineForItem(ls, itemId) != -1 ==>
      var k := FindLineForItem(ls, itemId);
      var r := AddItem(catalog, ls, itemId, freshId);
      |r| == |ls| && r[k].quantity == ls[k].quantity + 1 && r[k].total == ls[k].total + ls[k].price &&
      forall i :: 0 <= i < |ls| && i != k ==> r[i] == ls[i]
    ensures FindCatalogItem(catalog, itemId).Some? && FindLineForItem(ls, itemId) == -1 ==>
      |AddItem(catalog, ls, itemId, freshId)| == |ls| + 1
  {
    var found := FindCatalogItem(catalog, itemId);
    if found.Some? {
      var k := FindLineForItem(ls, itemId);
      if k != -1 {
        ChangeUniqueIsUpdate(ls, k, 1);
        IncrementedTotal(ls[k]);
        ChangeQuantityKeepsShape(ls, ls[k].id, 1);
      } else {
        AppendNewLineKeepsInvariant(ls, found.value, freshId);
      }
    }
  }

  lemma AppendNewLineKeepsInvariant(ls: seq<Line>, item: ApiTypes.Item, freshId: int)
    requires Invariant(ls) && LineIdAbsent(ls, freshId)
    requires forall i :: 0 <= i < |ls| ==> ls[i].itemId != item.id
    ensures Invariant(ls + [NewLine(item, freshId)])
  {
  }

  /** A quantity change keeps the invariant. */
  lemma ChangeQuantityKeepsInvariant(ls: seq<Line>, id: int, change: int)
    requires Invariant(ls)
    ensures Invariant(ChangeQuantity(ls, id, change))
  {
    ChangeQuantityKeepsShape(ls, id, change);
  }

  /** Removing lines keeps the invariant. */
  lemma RemoveLinesKeepsInvariant(ls: seq<Line>, id: int)
    requires Invariant(ls)
    ensures Invariant(RemoveLines(ls, id))
  {
    RemoveLinesSpec(ls, id);
    var r := RemoveLines(ls, id);
    FilterIsSubsequence(ls, LineLacksId(id));
    SubsequenceKeepsUnique(r, ls);
  }

  predicate UniqueKeys(ls: seq<Line>) {
    UniqueLineIds(ls) && OneLinePerItem(ls)
  }

  lemma {:induction false} SubsequenceKeepsUnique(a: seq<Line>, b: seq<Line>)
    requires IsSubsequence(a, b) && UniqueKeys(b)
    ensures UniqueKeys(a)
    decreases |b|
  {
    if a != [] && b != [] {
      var b' := b[..|b| - 1];
      assert UniqueKeys(b');
      if a[|a| - 1] == b[|b| - 1] {
        var a' := a[..|a| - 1];
        SubsequenceKeepsUnique(a', b');
        SubsequenceMembers(a', b');
        forall i | 0 <= i < |a'| ensures a'[i].id != a[|a| - 1].id && a'[i].itemId != a[|a| - 1].itemId {
          var j :| 0 <= j < |b'| && b'[j] == a'[i];
        }
      } else {
        SubsequenceKeepsUnique(a, b');
      }
    }
  }

  lemma {:induction false} SubsequenceMembers(a: seq<Line>, b: seq<Line>)
    requires IsSubsequence(a, b)
    ensures forall i :: 0 <= i < |a| ==> exists j :: 0 <= j < |b| && b[j] == a[i]
    decreases |b|
  {
    if a != [] {
      var b' := b[..|b| - 1];
      if a[|a| - 1] == b[|b| - 1] {
        SubsequenceMembers(a[..|a| - 1], b');
        forall i | 0 <= i < |a| ensures exists j :: 0 <= j < |b| && b[j] == a[i] {
          if i == |a| - 1 {
            assert b[|b| - 1] == a[i];
          } else {
            assert a[..|a| - 1][i] == a[i];
            var j :| 0 <= j < |b'| && b'[j] == a[i];
            assert b[j] == a[i];
          }
        }
      } else {
        SubsequenceMembers(a, b');
        forall i | 0 <= i < |a| ensures exists j :: 0 <= j < |b| && b[j] == a[i] {
          var j :| 0 <= j < |b'| && b'[j] == a[i];
          assert b[j] == a[i];
        }
      }
    }
  }

  /** `subtotal * (taxRate / 100)`: the rate is a percentage of the subtotal, and nothing is rounded. */
  function TaxAmount(subtotal: real, taxRate: real): (r: real)
    ensures r * 100.0 == subtotal * taxRate
    ensures taxRate == 0.0 || subtotal == 0.0 ==> r == 0.0
  {
    subtotal * (taxRate / 100.0)
  }

  function PayloadLines(ls: seq<Line>): (r: seq<PayloadLine>)
    ensures |r| == |ls|
    ensures forall i :: 0 <= i < |ls| ==>
      r[i].itemId == ls[i].itemId && r[i].quantity == ls[i].quantity && r[i].price == ls[i].price
  {
    if ls == [] then []
    else
      var l := ls[|ls| - 1];
      PayloadLines(ls[..|ls| - 1]) + [PayloadLine(l.itemId, l.quantity, l.price)]
  }

  /** `handleSubmit`: one entry per line, in order; the subtotal sums the line totals, the tax is the
      rate's share of it and the total adds the two; an empty phone or address is left out. */
  function Submit(c: Customer, ls: seq<Line>, taxRate: real, date: string): (p: Payload)
    ensures p.customerName == c.name && p.date == date && p.taxRate == taxRate
    ensures p.customerPhone.None? <==> c.phone == ""
    ensures p.customerPhone.Some? ==> p.customerPhone.value == c.phone
    ensures p.customerAddress.None? <==> c.address == ""
    ensures p.customerAddress.Some? ==> p.customerAddress.value == c.address
    ensures |p.items| == |ls|
    ensures forall i :: 0 <= i < |ls| ==>
      p.items[i].itemId == ls[i].itemId && p.items[i].quantity == ls[i].quantity && p.items[i].price == ls[i].price
    ensures p.subtotal == SumTotals(ls)
    ensures p.taxAmount == p.subtotal * p.taxRate / 100.0
    ensures p.total == p.subtotal + p.taxAmount
  {
    var subtotal := SumTotals(ls);
    var taxAmount := TaxAmount(subtotal, taxRate);
    Payload(c.name, if c.phone == "" then None else Some(c.phone),
            if c.address == "" then None else Some(c.address), date,
            PayloadLines(ls), subtotal, taxRate, taxAmount, subtotal + taxAmount)
  }

  /** The sum of price times quantity over submitted entries. */
  function PayloadSum(items: seq<PayloadLine>): real {
    if items == [] then 0.0 else PayloadSum(items[..|items| - 1]) + items[|items| - 1].price * items[|items| - 1].quantity as real
  }

  /** Under the invariant, the submitted subtotal can be recomputed from the submitted entries alone. */
  lemma {:induction false} SubmittedSubtotalMatchesEntries(c: Customer, ls: seq<Line>, taxRate: real, date: string)
    requires AllWellFormed(ls)
    ensures Submit(c, ls, taxRate, date).subtotal == PayloadSum(Submit(c, ls, taxRate, date).items)
  {
    SumOfWellFormed(ls);
    PayloadSumOfLines(ls);
  }

  lemma PayloadSumAppend(ps: seq<PayloadLine>, p: PayloadLine)
    ensures PayloadSum(ps + [p]) == PayloadSum(ps) + p.price * p.quantity as real
  {
    assert (ps + [p])[..|ps|] == ps;
  }

  lemma {:induction false} PayloadSumOfLines(ls: seq<Line>)
    ensures PayloadSum(PayloadLines(ls)) == SumPriceTimesQuantity(ls)
    decreases |ls|
  {
    if ls != [] {
      var init, l := ls[..|ls| - 1], ls[|ls| - 1];
      PayloadSumOfLines(init);
      PayloadSumAppend(PayloadLines(init), PayloadLine(l.itemId, l.quantity, l.price));
    }
  }



  /** The submit button is enabled only with at least one line and a customer name. */
  predicate SubmitEnabled(ls: seq<Line>, c: Customer): (b: bool)
    ensures !b <==> |ls| == 0 || c.name == ""
  {
    |ls| > 0 && c.name != ""
  }

  /** Once a catalog item has been picked, submitting depends only on the customer name. */
  lemma SubmitEnabledAfterAdd(catalog: seq<ApiTypes.Item>, ls: seq<Line>, itemId: int, freshId: int, c: Customer)
    requires FindCatalogItem(catalog, itemId).Some?
    ensures SubmitEnabled(AddItem(catalog, ls, itemId, freshId), c) <==> c.name != ""
  {
  }

  /** The worked example of a two-pizza order at the default tax rate: no rounding is applied. */
  lemma TwoMargheritas()
    ensures
      var ls := [NewLine(ApiTypes.Item(1, "Margherita", Storage.Pizza, 12.99, None), 7)];
      var p := Submit(Customer("Ann", "", ""), ChangeQuantity(ls, 7, 1), DefaultTaxRate, "d");
      p.subtotal == 25.98 && p.taxAmount == 2.14335 && p.total == 28.12335
  {
    var l := NewLine(ApiTypes.Item(1, "Margherita", Storage.Pizza, 12.99, None), 7);
    var ls2 := ChangeQuantity([l], 7, 1);
    assert ls2 == [Rescaled(l, 1)];
    assert Rescaled(l, 1).total == 12.99 * 2.0;
    assert SumTotals(ls2) == 25.98 by {
      assert ls2[..0] == [];
    }
  }

  /** The form's state: the catalog it offers, the selected lines, the customer fields, the tax rate. */
  class InvoiceForm {
    var catalog: seq<ApiTypes.Item>
    var selectedItems: seq<Line>
    var customer: Customer
    var taxRate: real

    /** Mounting the form with the loaded catalog and optional `initialData`. */
    constructor (catalog: seq<ApiTypes.Item>, init: Option<InitialData>)
      ensures this.catalog == catalog && customer == InitialCustomer(init) && taxRate == DefaultTaxRate
      ensures init.None? ==> selectedItems == []
      ensures init.Some? ==> selectedItems == LoadLines(init.value.items)
    {
      this.catalog := catalog;
      customer := InitialCustomer(init);
      taxRate := DefaultTaxRate;
      selectedItems := if init.Some? then LoadLines(init.value.items) else [];
    }

    method HandleQuantityChange(id: int, change: int)
      modifies this
      ensures selectedItems == ChangeQuantity(old(selectedItems), id, change)
      ensures old(Invariant(selectedItems)) ==> Invariant(selectedItems)
      ensures catalog == old(catalog) && customer == old(customer) && taxRate == old(taxRate)
    {
      if Invariant(selectedItems) {
        ChangeQuantityKeepsInvariant(selectedItems, id, change);
      }
      selectedItems := ChangeQuantity(selectedItems, id, change);
    }

    /** `freshId` is the `Date.now()` key of a new line; the invariant is kept when that key is unused. */
    method HandleAddItem(itemId: int, freshId: int)
      modifies this
      ensures selectedItems == AddItem(catalog, old(selectedItems), itemId, freshId)
      ensures old(Invariant(selectedItems)) && LineIdAbsent(old(selectedItems), freshId) ==> Invariant(selectedItems)
      ensures catalog == old(catalog) && customer == old(customer) && taxRate == old(taxRate)
    {
      if Invariant(selectedItems) && LineIdAbsent(selectedItems, freshId) {
        AddItemKeepsInvariant(catalog, selectedItems, itemId, freshId);
      }
      var found := FindCatalogItem(catalog, itemId);
      if found.None? {
        return;
      }
      var item := found.value;
      var existing := FindLineForItem(selectedItems, item.id);
      if existing != -1 {
        HandleQuantityChange(selectedItems[existing].id, 1);
      } else {
        selectedItems := selectedItems + [NewLine(item, freshId)];
      }
    }

    method HandleRemoveItem(id: int)
      modifies this
      ensures selectedItems == RemoveLines(old(selectedItems), id)
      ensures old(Invariant(selectedItems)) ==> Invariant(selectedItems)
      ensures catalog == old(catalog) && customer == old(customer) && taxRate == old(taxRate)
    {
      if Invariant(selectedItems) {
        RemoveLinesKeepsInvariant(selectedItems, id);
      }
      selectedItems := RemoveLines(selectedItems, id);
    }

    method HandleSubmit(date: string) returns (p: Payload)
      ensures p == Submit(customer, selectedItems, taxRate, date)
    {
      p := Submit(customer, selectedItems, taxRate, date);
    }
  }
}
