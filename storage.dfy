/** The browser-storage layer of the shop (src/lib/storage.ts): a catalog of items, a list of invoices
    and an invoice counter, each kept under its own storage key. JSON serialisation is taken as the
    identity, so a key holds the value itself; a key that was never written is `None`. */
module Storage {
  import opened Wrappers
  import opened Seqs
  import opened Text

  datatype Category = Pizza | Topping | Beverage | Other

  /** A catalog item as stored. */
  datatype Item = Item(id: string, name: string, category: Category, price: real, description: Option<string>)

  /** `Omit<Item, 'id'>`: what a caller passes to `addItem`. */
  datatype ItemFields = ItemFields(name: string, category: Category, price: real, description: Option<string>)

  /** `Partial<Item>`: each key may be absent (`None`). For `description`, which is itself optional, a
      present key may carry `undefined`, so it is an optional optional string. */
  datatype ItemUpdates = ItemUpdates(
    id: Option<string>, name: Option<string>, category: Option<Category>, price: Option<real>,
    description: Option<Option<string>>)

  datatype InvoiceItem = InvoiceItem(itemId: string, itemName: string, quantity: int, price: real, total: real)

  datatype Invoice = Invoice(
    id: string, invoiceNumber: string, date: string, customerName: string,
    customerPhone: Option<string>, customerAddress: Option<string>, items: seq<InvoiceItem>,
    subtotal: real, taxRate: real, taxAmount: real, total: real)

  /** The eight items a new installation starts with. */
  function DefaultItems(): (r: seq<Item>)
    ensures |r| == 8
  {
    [ Item("1", "Margherita Pizza", Pizza, 12.99, Some("Classic tomato sauce, mozzarella, fresh basil")),
      Item("2", "Pepperoni Pizza", Pizza, 14.99, Some("Tomato sauce, mozzarella, pepperoni")),
      Item("3", "Supreme Pizza", Pizza, 18.99, Some("Loaded with pepperoni, sausage, peppers, onions, mushrooms")),
      Item("4", "Extra Cheese", Topping, 2.50, Some("Additional mozzarella cheese")),
      Item("5", "Mushrooms", Topping, 1.50, Some("Fresh mushrooms")),
      Item("6", "Pepperoni", Topping, 2.00, Some("Premium pepperoni slices")),
      Item("7", "Coca Cola", Beverage, 2.99, Some("16oz bottle")),
      Item("8", "Bottled Water", Beverage, 1.99, Some("16oz bottle")) ]
  }

  predicate UniqueItemIds(s: seq<Item>) {
    forall i, j :: 0 <= i < j < |s| ==> s[i].id != s[j].id
  }

  predicate IdAbsent(s: seq<Item>, id: string) {
    forall i :: 0 <= i < |s| ==> s[i].id != id
  }

  lemma DefaultItemIdsUnique()
    ensures UniqueItemIds(DefaultItems())
  {
  }

  /** `{ ...item, id }`: the fields of `addItem`'s argument with the new id. */
  function WithId(f: ItemFields, id: string): (r: Item)
    ensures r.id == id && r.name == f.name && r.category == f.category
    ensures r.price == f.price && r.description == f.description
  {
    Item(id, f.name, f.category, f.price, f.description)
  }

  /** `{ ...item, ...updates }`: a key present in `updates` overwrites, an absent key keeps the item's. */
  function Merge(it: Item, u: ItemUpdates): (r: Item)
    ensures r.id == u.id.GetOr(it.id) && r.name == u.name.GetOr(it.name)
    ensures r.category == u.category.GetOr(it.category) && r.price == u.price.GetOr(it.price)
    ensures r.description == u.description.GetOr(it.description)
  {
    Item(u.id.GetOr(it.id), u.name.GetOr(it.name), u.category.GetOr(it.category),
         u.price.GetOr(it.price), u.description.GetOr(it.description))
  }

  function ItemHasId(id: string): Item -> bool {
    (it: Item) => it.id == id
  }

  function ItemLacksId(id: string): Item -> bool {
    (it: Item) => it.id != id
  }

  function InvoiceHasId(id: string): Invoice -> bool {
    (inv: Invoice) => inv.id == id
  }

  function InvoiceLacksId(id: string): Invoice -> bool {
    (inv: Invoice) => inv.id != id
  }

  /** The list `updateItem` writes back: only the first item with the id is merged with `updates`;
      without such an item the list is unchanged. */
  function UpdateFirst(s: seq<Item>, id: string, u: ItemUpdates): (r: seq<Item>)
    ensures |r| == |s|
    ensures IdAbsent(s, id) ==> r == s
    ensures forall k :: 0 <= k < |s| && s[k].id == id && IdAbsent(s[..k], id) ==>
      r == s[k := Merge(s[k], u)]
  {
    var k := FindIndex(s, ItemHasId(id));
    if k == -1 then s else s[k := Merge(s[k], u)]
  }

  /** The list `deleteItem` writes back. */
  function RemoveItem(s: seq<Item>, id: string): (r: seq<Item>)
    ensures |r| <= |s|
    ensures forall i :: 0 <= i < |r| ==> r[i].id != id && r[i] in s
    ensures forall i :: 0 <= i < |s| && s[i].id != id ==> s[i] in r
  {
    Filter(s, ItemLacksId(id))
  }

  /** Deleting an id leaves no item with it, keeps every other item as often as it was there, and keeps
      their order. */
  lemma RemoveItemSpec(s: seq<Item>, id: string)
    ensures IdAbsent(RemoveItem(s, id), id)
    ensures forall x: Item :: x.id != id ==> multiset(RemoveItem(s, id))[x] == multiset(s)[x]
    ensures IsSubsequence(RemoveItem(s, id), s)
  {
    FilterIsSubsequence(s, ItemLacksId(id));
    forall x: Item | x.id != id ensures multiset(RemoveItem(s, id))[x] == multiset(s)[x] {
      FilterCount(s, ItemLacksId(id), x);
    }
  }

  /** Deleting the same id twice is deleting it once. */
  lemma RemoveItemIdempotent(s: seq<Item>, id: string)
    ensures RemoveItem(RemoveItem(s, id), id) == RemoveItem(s, id)
  {
    FilterIdempotent(s, ItemLacksId(id));
  }

  /** Deleting a missing id is a silent no-op. */
  lemma RemoveMissingItem(s: seq<Item>, id: string)
    requires IdAbsent(s, id)
    ensures RemoveItem(s, id) == s
  {
    FilterAllPass(s, ItemLacksId(id));
  }

  /** The list `saveInvoice` writes back: the first invoice with the same id is replaced in place,
      otherwise the invoice is appended. */
  function Upsert(s: seq<Invoice>, inv: Invoice): (r: seq<Invoice>)
    ensures (forall i :: 0 <= i < |s| ==> s[i].id != inv.id) ==> r == s + [inv]
    ensures forall k :: 0 <= k < |s| && s[k].id == inv.id && (forall i :: 0 <= i < k ==> s[i].id != inv.id) ==>
      r == s[k := inv]
    ensures |r| == if exists i :: 0 <= i < |s| && s[i].id == inv.id then |s| else |s| + 1
    ensures inv in r
  {
    var k := FindIndex(s, InvoiceHasId(inv.id));
    if k == -1 then s + [inv] else assert s[k := inv][k] == inv; s[k := inv]
  }

  /** The list `deleteInvoice` writes back. */
  function RemoveInvoice(s: seq<Invoice>, id: string): (r: seq<Invoice>)
    ensures |r| <= |s|
    ensures forall i :: 0 <= i < |r| ==> r[i].id != id && r[i] in s
    ensures forall i :: 0 <= i < |s| && s[i].id != id ==> s[i] in r
  {
    Filter(s, InvoiceLacksId(id))
  }

  lemma RemoveInvoiceSpec(s: seq<Invoice>, id: string)
    ensures forall i :: 0 <= i < |RemoveInvoice(s, id)| ==> RemoveInvoice(s, id)[i].id != id
    ensures forall x: Invoice :: x.id != id ==> multiset(RemoveInvoice(s, id))[x] == multiset(s)[x]
    ensures IsSubsequence(RemoveInvoice(s, id), s)
  {
    FilterIsSubsequence(s, InvoiceLacksId(id));
    forall x: Invoice | x.id != id ensures multiset(RemoveInvoice(s, id))[x] == multiset(s)[x] {
      FilterCount(s, InvoiceLacksId(id), x);
    }
  }

  /** `"INV-" + counter.toString().padStart(4, '0')`. */
  function InvoiceNumber(counter: nat): string {
    "INV-" + PadStart(Decimal(counter), 4, '0')
  }

  /** An invoice number starts with "INV-" and its digits read back as the counter. */
  lemma InvoiceNumberRoundTrip(n: nat)
    ensures |InvoiceNumber(n)| >= 8 && InvoiceNumber(n)[..4] == "INV-"
    ensures forall i :: 4 <= i < |InvoiceNumber(n)| ==> IsDigit(InvoiceNumber(n)[i])
    ensures DecimalValue(InvoiceNumber(n)[4..]) == n
  {
    var d := Decimal(n);
    var p := PadStart(d, 4, '0');
    assert InvoiceNumber(n)[4..] == p;
    assert p == p[..|p| - |d|] + d;
    ZeroPaddedValue(p[..|p| - |d|], d);
    DecimalRoundTrip(n);
  }

  /** Different counters give different invoice numbers. */
  lemma InvoiceNumberInjective(m: nat, n: nat)
    requires InvoiceNumber(m) == InvoiceNumber(n)
    ensures m == n
  {
    InvoiceNumberRoundTrip(m);
    InvoiceNumberRoundTrip(n);
  }

  lemma FirstInvoiceNumber()
    ensures InvoiceNumber(1) == "INV-0001"
  {
    assert PadStart("1", 4, '0') == "0001";
  }

  lemma DecimalLength(n: nat, k: nat)
    requires n >= Pow10(k)
    ensures |Decimal(n)| >= k + 1
  {
    if k > 0 {
      DecimalLength(n / 10, k - 1);
    }
  }

  function Pow10(k: nat): (r: nat)
    ensures r >= 1
  {
    if k == 0 then 1 else 10 * Pow10(k - 1)
  }

  /** A counter of 10000 or more is written out in full: padding never truncates. */
  lemma LargeCounterNotTruncated(n: nat)
    requires n >= 10000
    ensures InvoiceNumber(n) == "INV-" + Decimal(n)
  {
    assert Pow10(4) == 10000;
    DecimalLength(n, 4);
  }

  /** The numbers handed out by `n` calls on fresh storage, in order. */
  function Issued(n: nat): (r: seq<string>)
    ensures |r| == n
    ensures forall i :: 0 <= i < n ==> r[i] == InvoiceNumber(i + 1)
  {
    seq(n, i requires 0 <= i < n => InvoiceNumber(i + 1))
  }

  /** No invoice number is handed out twice. */
  lemma IssuedDistinct(n: nat)
    ensures forall i, j :: 0 <= i < j < n ==> Issued(n)[i] != Issued(n)[j]
  {
    forall i, j | 0 <= i < j < n ensures Issued(n)[i] != Issued(n)[j] {
      if Issued(n)[i] == Issued(n)[j] {
        InvoiceNumberInjective(i + 1, j + 1);
      }
    }
  }

  /** `StorageManager`: every method reads what it needs from the three keys and writes back. */
  class StorageManager {
    var items: Option<seq<Item>>
    var invoices: Option<seq<Invoice>>
    var counter: Option<nat>
    /** Every invoice number handed out so far, oldest first. */
    ghost var issued: seq<string>

    ghost predicate Valid()
      reads this
    {
      issued == Issued(CounterValue())
    }

    /** `parseInt(stored || '0')`. */
    function CounterValue(): (n: nat)
      reads this
      ensures counter.None? ==> n == 0
      ensures counter.Some? ==> n == counter.value
    {
      counter.GetOr(0)
    }

    /** What `getItems` returns: the stored list, or the default items when the key is absent. */
    function CurrentItems(): (r: seq<Item>)
      reads this
      ensures items.None? ==> r == DefaultItems() && |r| == 8
      ensures items.Some? ==> r == items.value
    {
      if items.Some? then items.value else DefaultItems()
    }

    /** What `getInvoices` returns. */
    function CurrentInvoices(): (r: seq<Invoice>)
      reads this
      ensures invoices.None? ==> r == []
      ensures invoices.Some? ==> r == invoices.value
    {
      invoices.GetOr([])
    }

    /** Empty browser storage. */
    constructor ()
      ensures items == None && invoices == None && counter == None
      ensures Valid() && issued == []
    {
      items, invoices, counter := None, None, None;
      issued := [];
    }

    method GetItems() returns (r: seq<Item>)
      modifies this
      ensures old(items).Some? ==> r == old(items).value
      ensures old(items).None? ==> r == DefaultItems()
      ensures items == Some(r)
      ensures invoices == old(invoices) && counter == old(counter) && issued == old(issued)
    {
      if items.Some? {
        r := items.value;
      } else {
        r := GetDefaultItems();
      }
    }

    method SaveItems(s: seq<Item>)
      modifies this
      ensures items == Some(s)
      ensures invoices == old(invoices) && counter == old(counter) && issued == old(issued)
    {
      items := Some(s);
    }

    /** Appends the fields with the new id (`Date.now()`, passed in); the ids stay unique when the
        new id is not in use already. */
    method AddItem(f: ItemFields, newId: string) returns (r: Item)
      modifies this
      ensures r == WithId(f, newId)
      ensures items == Some(old(CurrentItems()) + [r])
      ensures UniqueItemIds(old(CurrentItems())) && IdAbsent(old(CurrentItems()), newId) ==>
        UniqueItemIds(CurrentItems())
      ensures invoices == old(invoices) && counter == old(counter) && issued == old(issued)
    {
      var list := GetItems();
      r := WithId(f, newId);
      list := list + [r];
      SaveItems(list);
    }

    method UpdateItem(id: string, u: ItemUpdates)
      modifies this
      ensures items == Some(UpdateFirst(old(CurrentItems()), id, u))
      ensures invoices == old(invoices) && counter == old(counter) && issued == old(issued)
    {
      var list := GetItems();
      var index := FindIndex(list, ItemHasId(id));
      if index != -1 {
        list := list[index := Merge(list[index], u)];
        SaveItems(list);
      }
    }

    method DeleteItem(id: string)
      modifies this
      ensures items == Some(RemoveItem(old(CurrentItems()), id))
      ensures invoices == old(invoices) && counter == old(counter) && issued == old(issued)
    {
      var list := GetItems();
      list := Filter(list, ItemLacksId(id));
      SaveItems(list);
    }

    method GetInvoices() returns (r: seq<Invoice>)
      ensures invoices.None? ==> r == []
      ensures invoices.Some? ==> r == invoices.value
    {
      if invoices.Some? {
        r := invoices.value;
      } else {
        r := [];
      }
    }

    method SaveInvoices(s: seq<Invoice>)
      modifies this
      ensures invoices == Some(s)
      ensures items == old(items) && counter == old(counter) && issued == old(issued)
    {
      invoices := Some(s);
    }

    /** Reads the counter (absent = 0), stores it plus one and formats that. */
    method GetNextInvoiceNumber() returns (s: string)
      requires Valid()
      modifies this
      ensures Valid()
      ensures counter == Some(old(CounterValue()) + 1)
      ensures s == InvoiceNumber(old(CounterValue()) + 1)
      ensures issued == old(issued) + [s]
      ensures forall i :: 0 <= i < |old(issued)| ==> old(issued)[i] != s
      ensures items == old(items) && invoices == old(invoices)
    {
      var next := counter.GetOr(0) + 1;
      counter := Some(next);
      s := InvoiceNumber(next);
      issued := issued + [s];
      assert issued == Issued(next);
      IssuedDistinct(next);
      forall i | 0 <= i < |old(issued)| ensures old(issued)[i] != s {
        assert old(issued)[i] == issued[i] && s == issued[next - 1];
      }
    }

    method SaveInvoice(inv: Invoice)
      modifies this
      ensures invoices == Some(Upsert(old(CurrentInvoices()), inv))
      ensures items == old(items) && counter == old(counter) && issued == old(issued)
    {
      var list := GetInvoices();
      var existingIndex := FindIndex(list, InvoiceHasId(inv.id));
      if existingIndex != -1 {
        list := list[existingIndex := inv];
      } else {
        list := list + [inv];
      }
      SaveInvoices(list);
    }

    method DeleteInvoice(id: string)
      modifies this
      ensures invoices == Some(RemoveInvoice(old(CurrentInvoices()), id))
      ensures items == old(items) && counter == old(counter) && issued == old(issued)
    {
      var list := GetInvoices();
      list := Filter(list, InvoiceLacksId(id));
      SaveInvoices(list);
    }

    /** Writes the default items and returns them. */
    method GetDefaultItems() returns (r: seq<Item>)
      modifies this
      ensures r == DefaultItems() && items == Some(r)
      ensures invoices == old(invoices) && counter == old(counter) && issued == old(issued)
    {
      r := DefaultItems();
      SaveItems(r);
    }
  }

  /** A fresh installation: the catalog is the eight defaults and stays so on the next load, there
      are no invoices, and the first two invoice numbers are INV-0001 and INV-0002. */
  method FreshInstallation() returns (first: seq<Item>, again: seq<Item>, invs: seq<Invoice>, n1: string, n2: string)
    ensures first == again == DefaultItems() && |first| == 8
    ensures invs == []
    ensures n1 == "INV-0001" && n2 == "INV-0002"
  {
    var store := new StorageManager();
    first := store.GetItems();
    again := store.GetItems();
    invs := store.GetInvoices();
    n1 := store.GetNextInvoiceNumber();
    n2 := store.GetNextInvoiceNumber();
    FirstInvoiceNumber();
    assert PadStart("2", 4, '0') == "0002";
  }
}
