/** The earlier invoice form of src/components/InvoiceForm.tsx: every pick appends a new line, there is
    no tax, and lines loaded from `initialData` keep the totals they came with. */
module AppendingForm {
  import opened Wrappers
  import opened Lines
  import ApiTypes
  import MergingForm

  /** What `handleSubmit` passes to `onSave`: the phone goes out as typed, '' included. */
  datatype Payload = Payload(customerName: string, customerPhone: string, date: string, items: seq<MergingForm.PayloadLine>, total: real)

  /** Loading `initialData`: every field of a line is copied as it is, the total included. */
  function LoadLines(init: seq<MergingForm.InitialLine>): (r: seq<Line>)
    ensures |r| == |init|
    ensures forall i :: 0 <= i < |init| ==>
      r[i].id == init[i].id && r[i].itemId == init[i].itemId && r[i].name == init[i].itemName &&
      r[i].quantity == init[i].quantity && r[i].price == init[i].price && r[i].total == init[i].total
  {
    if init == [] then []
    else
      var l := init[0];
      [Line(l.id, l.itemId, l.itemName, l.quantity, l.price, l.total)] + LoadLines(init[1..])
  }

  /** A stored total that disagrees with price times quantity survives loading. */
  lemma LoadedTotalIsNotRecomputed()
    ensures !AllWellFormed(LoadLines([MergingForm.InitialLine(1, 1, "Pepperoni Pizza", 2, 14.99, 14.99)]))
  {
    var r := LoadLines([MergingForm.InitialLine(1, 1, "Pepperoni Pizza", 2, 14.99, 14.99)]);
    assert r[0].total == 14.99 && r[0].price * r[0].quantity as real == 29.98;
  }

  /** A quantity change repairs a line's total whatever it was loaded with. */
  lemma ChangeQuantityRepairsTotals(ls: seq<Line>, id: int, change: int)
    ensures forall i :: 0 <= i < |ls| && ls[i].id == id ==> WellFormed(ChangeQuantity(ls, id, change)[i])
    ensures forall i :: 0 <= i < |ls| && ls[i].id != id ==> ChangeQuantity(ls, id, change)[i] == ls[i]
  {
  }

  /** `handleAddItem(itemId)`: an unknown item leaves the lines as they are; a known item always gets a
      new line at the end, with quantity 1 and its catalog price as total. */
  function AddItem(catalog: seq<ApiTypes.Item>, ls: seq<Line>, itemId: int, freshId: int): (r: seq<Line>)
    ensures MergingForm.FindCatalogItem(catalog, itemId).None? ==> r == ls
    ensures MergingForm.FindCatalogItem(catalog, itemId).Some? ==>
      var item := MergingForm.FindCatalogItem(catalog, itemId).value;
      |r| == |ls| + 1 && r[..|ls|] == ls &&
      r[|ls|] == Line(freshId, item.id, item.name, 1, item.price, item.price)
  {
    match MergingForm.FindCatalogItem(catalog, itemId)
    case None => ls
    case Some(item) => ls + [Line(freshId, item.id, item.name, 1, item.price, item.price)]
  }

  /** Picking the same item twice gives two lines for it. */
  lemma AddItemTwiceDuplicates(catalog: seq<ApiTypes.Item>, ls: seq<Line>, itemId: int, id1: int, id2: int)
    requires MergingForm.FindCatalogItem(catalog, itemId).Some?
    ensures
      var r := AddItem(catalog, AddItem(catalog, ls, itemId, id1), itemId, id2);
      |r| == |ls| + 2 && r[|ls|].itemId == r[|ls| + 1].itemId == itemId
  {
  }

  /** Appending keeps the lines well formed and, with a fresh key, keeps their keys distinct. */
  lemma AddItemKeepsShape(catalog: seq<ApiTypes.Item>, ls: seq<Line>, itemId: int, freshId: int)
    ensures AllWellFormed(ls) ==> AllWellFormed(AddItem(catalog, ls, itemId, freshId))
    ensures UniqueLineIds(ls) && LineIdAbsent(ls, freshId) ==> UniqueLineIds(AddItem(catalog, ls, itemId, freshId))
  {
    var r := AddItem(catalog, ls, itemId, freshId);
    if MergingForm.FindCatalogItem(catalog, itemId).Some? {
      assert forall i :: 0 <= i < |ls| ==> r[i] == ls[i];
    }
  }

  /** `handleSubmit`: one entry per line, in order, shaped as in the other form, and
      `calculateTotal()`, the sum of line totals. */
  function Submit(name: string, phone: string, ls: seq<Line>, date: string): (p: Payload)
    ensures p.customerName == name && p.customerPhone == phone && p.date == date
    ensures |p.items| == |ls|
    ensures forall i :: 0 <= i < |ls| ==>
      p.items[i].itemId == ls[i].itemId && p.items[i].quantity == ls[i].quantity && p.items[i].price == ls[i].price
    ensures p.total == SumTotals(ls)
  {
    Payload(name, phone, date, MergingForm.PayloadLines(ls), SumTotals(ls))
  }

  /** The submit button is enabled only with at least one line and a customer name. */
  predicate SubmitEnabled(ls: seq<Line>, name: string): (b: bool)
    ensures !b <==> |ls| == 0 || name == ""
  {
    |ls| > 0 && name != ""
  }

  /** Adding a known item always enables submitting, given a customer name. */
  lemma SubmitEnabledAfterAdd(catalog: seq<ApiTypes.Item>, ls: seq<Line>, itemId: int, freshId: int, name: string)
    requires MergingForm.FindCatalogItem(catalog, itemId).Some?
    ensures SubmitEnabled(AddItem(catalog, ls, itemId, freshId), name) <==> name != ""
  {
  }

  class InvoiceForm {
    var catalog: seq<ApiTypes.Item>
    var selectedItems: seq<Line>
    var customerName: string
    var customerPhone: string

    constructor (catalog: seq<ApiTypes.Item>, init: Option<MergingForm.InitialData>)
      ensures this.catalog == catalog
      ensures init.None? ==> selectedItems == [] && customerName == "" && customerPhone == ""
      ensures init.Some? ==> selectedItems == LoadLines(init.value.items)
      ensures init.Some? ==> customerName == init.value.customerName.GetOr("")
      ensures init.Some? ==> customerPhone == init.value.customerPhone.GetOr("")
    {
      this.catalog := catalog;
      if init.Some? {
        selectedItems := LoadLines(init.value.items);
        customerName := init.value.customerName.GetOr("");
        customerPhone := init.value.customerPhone.GetOr("");
      } else {
        selectedItems, customerName, customerPhone := [], "", "";
      }
    }

    /** `freshId` is the `Date.now()` key of the new line. */
    method HandleAddItem(itemId: int, freshId: int)
      modifies this
      ensures selectedItems == AddItem(catalog, old(selectedItems), itemId, freshId)
      ensures catalog == old(catalog) && customerName == old(customerName) && customerPhone == old(customerPhone)
    {
      var found := MergingForm.FindCatalogItem(catalog, itemId);
      if found.None? {
        return;
      }
      var item := found.value;
      selectedItems := selectedItems + [Line(freshId, item.id, item.name, 1, item.price, item.price)];
    }

    method HandleQuantityChange(id: int, change: int)
      modifies this
      ensures selectedItems == ChangeQuantity(old(selectedItems), id, change)
      ensures catalog == old(catalog) && customerName == old(customerName) && customerPhone == old(customerPhone)
    {
      selectedItems := ChangeQuantity(selectedItems, id, change);
    }

    method HandleRemoveItem(id: int)
      modifies this
      ensures selectedItems == RemoveLines(old(selectedItems), id)
      ensures catalog == old(catalog) && customerName == old(customerName) && customerPhone == old(customerPhone)
    {
      selectedItems := RemoveLines(selectedItems, id);
    }

    method CalculateTotal() returns (t: real)
      ensures t == SumTotals(selectedItems)
      ensures AllWellFormed(selectedItems) ==> t == SumPriceTimesQuantity(selectedItems)
    {
      t := SumTotals(selectedItems);
      if AllWellFormed(selectedItems) {
        SumOfWellFormed(selectedItems);
      }
    }

    method HandleSubmit(date: string) returns (p: Payload)
      ensures p == Submit(customerName, customerPhone, selectedItems, date)
    {
      var total := CalculateTotal();
      p := Payload(customerName, customerPhone, date, MergingForm.PayloadLines(selectedItems), total);
    }
  }
}
