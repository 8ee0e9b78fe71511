/** The catalog screen of src/components/ItemManagement.tsx: items grouped by category, and a dialog
    that adds a new item or edits the one picked. Rendering `item.price.toString()` is a parameter. */
module ItemManagement {
  import opened Wrappers
  import opened Seqs
  import opened Storage
  import opened ItemSchema
  import opened Text

  function InCategory(c: Category): Item -> bool {
    (it: Item) => it.category == c
  }

  predicate Distinct(cs: seq<Category>) {
    forall i, j :: 0 <= i < j < |cs| ==> cs[i] != cs[j]
  }

  /** `Object.keys(groupedItems)`: the categories in the order of their first item. */
  function CategoryOrder(items: seq<Item>): (r: seq<Category>)
    ensures |r| <= |items|
    ensures r == [] <==> items == []
    decreases |items|
  {
    if items == [] then []
    else
      var r := CategoryOrder(items[..|items| - 1]);
      var c := items[|items| - 1].category;
      if c in r then r else r + [c]
  }

  /** Each category is listed once. */
  lemma {:induction false} CategoryOrderDistinct(items: seq<Item>)
    ensures Distinct(CategoryOrder(items))
    decreases |items|
  {
    if items != [] {
      CategoryOrderDistinct(items[..|items| - 1]);
    }
  }

  /** Every item's category is listed, and nothing else is. */
  lemma {:induction false} CategoryOrderSpec(items: seq<Item>)
    ensures forall i :: 0 <= i < |items| ==> items[i].category in CategoryOrder(items)
    ensures forall k :: 0 <= k < |CategoryOrder(items)| ==>
      exists i :: 0 <= i < |items| && items[i].category == CategoryOrder(items)[k]
    ensures |CategoryOrder(items)| == 0 <==> |items| == 0
    decreases |items|
  {
    if items != [] {
      var init := items[..|items| - 1];
      CategoryOrderSpec(init);
      assert forall i :: 0 <= i < |init| ==> init[i] == items[i];
      var r := CategoryOrder(init);
      var r' := CategoryOrder(items);
      forall k | 0 <= k < |CategoryOrder(items)|
        ensures exists i :: 0 <= i < |items| && items[i].category == CategoryOrder(items)[k]
      {
        if k == |r| {
          assert items[|items| - 1].category == r'[k];
        } else {
          var i :| 0 <= i < |init| && init[i].category == r[k];
          assert items[i].category == r'[k];
        }
      }
      assert |r'| != 0;
    } else {
      assert CategoryOrder(items) == [];
    }
  }

  /** The items of category `c`, built the way the loop builds a group. */
  function OfCategory(items: seq<Item>, c: Category): seq<Item>
    decreases |items|
  {
    if items == [] then []
    else
      var last := items[|items| - 1];
      OfCategory(items[..|items| - 1], c) + if last.category == c then [last] else []
  }

  lemma {:induction false} OfCategoryIsFilter(items: seq<Item>, c: Category)
    ensures OfCategory(items, c) == Filter(items, InCategory(c))
    decreases |items|
  {
    if items != [] {
      OfCategoryIsFilter(items[..|items| - 1], c);
    }
  }

  lemma CategoryOrderStep(items: seq<Item>, n: int)
    requires 0 <= n < |items|
    ensures CategoryOrder(items[..n + 1]) ==
      (var r := CategoryOrder(items[..n]); if items[n].category in r then r else r + [items[n].category])
  {
    assert items[..n + 1][..n] == items[..n];
  }

  lemma OfCategoryStep(items: seq<Item>, n: int, c: Category)
    requires 0 <= n < |items|
    ensures OfCategory(items[..n + 1], c) ==
      if items[n].category == c then OfCategory(items[..n], c) + [items[n]]
      else OfCategory(items[..n], c)
  {
    assert items[..n + 1][..n] == items[..n];
  }

  lemma {:induction false} UnlistedCategoryIsEmpty(items: seq<Item>, c: Category)
    requires c !in CategoryOrder(items)
    ensures OfCategory(items, c) == []
    decreases |items|
  {
    if items != [] {
      var init := items[..|items| - 1];
      assert c !in CategoryOrder(init);
      UnlistedCategoryIsEmpty(init, c);
    }
  }

  /** The number of items over the groups of the categories in `keys`. */
  function GroupSizes(keys: seq<Category>, items: seq<Item>): nat {
    if keys == [] then 0 else GroupSizes(keys[..|keys| - 1], items) + |OfCategory(items, keys[|keys| - 1])|
  }

  lemma {:induction false} GroupSizesOther(keys: seq<Category>, items: seq<Item>, x: Item)
    requires x.category !in keys
    ensures GroupSizes(keys, items + [x]) == GroupSizes(keys, items)
    decreases |keys|
  {
    if keys != [] {
      var k := keys[|keys| - 1];
      assert (items + [x])[..|items|] == items;
      assert OfCategory(items + [x], k) == OfCategory(items, k);
      GroupSizesOther(keys[..|keys| - 1], items, x);
    }
  }

  lemma {:induction false} GroupSizesBump(keys: seq<Category>, items: seq<Item>, x: Item)
    requires x.category in keys && Distinct(keys)
    ensures GroupSizes(keys, items + [x]) == GroupSizes(keys, items) + 1
    decreases |keys|
  {
    var init := keys[..|keys| - 1];
    var k := keys[|keys| - 1];
    assert (items + [x])[..|items|] == items;
    if k == x.category {
      assert x.category !in init by {
        forall i | 0 <= i < |init| ensures init[i] != x.category {
          assert keys[i] == init[i];
        }
      }
      GroupSizesOther(init, items, x);
    } else {
      assert x.category in init;
      assert Distinct(init) by {
        forall i, j | 0 <= i < j < |init| ensures init[i] != init[j] {
          assert init[i] == keys[i] && init[j] == keys[j];
        }
      }
      GroupSizesBump(init, items, x);
    }
  }

  /** The groups partition the list: their sizes add up to the number of items. */
  lemma {:induction false} GroupSizesAddUp(items: seq<Item>)
    ensures GroupSizes(CategoryOrder(items), items) == |items|
    decreases |items|
  {
    if items != [] {
      var init := items[..|items| - 1];
      var x := items[|items| - 1];
      assert init + [x] == items;
      GroupSizesAddUp(init);
      var r := CategoryOrder(init);
      CategoryOrderDistinct(init);
      if x.category in r {
        GroupSizesBump(r, init, x);
      } else {
        GroupSizesOther(r, init, x);
        UnlistedCategoryIsEmpty(init, x.category);
        assert (r + [x.category])[..|r|] == r;
      }
    }
  }

  lemma GroupStepFilter(items: seq<Item>, n: int, groups0: map<Category, seq<Item>>, groups1: map<Category, seq<Item>>)
    requires 0 <= n < |items| && items[n].category in groups0
    requires groups0[items[n].category] == OfCategory(items[..n], items[n].category)
    requires forall c :: c in groups0 && c != items[n].category ==> groups0[c] == OfCategory(items[..n], c)
    requires groups1 == groups0[items[n].category := groups0[items[n].category] + [items[n]]]
    ensures forall c :: c in groups1 ==> groups1[c] == OfCategory(items[..n + 1], c)
  {
    forall c | c in groups1 ensures groups1[c] == OfCategory(items[..n + 1], c) {
      OfCategoryStep(items, n, c);
    }
  }

  /** A step of the loop on an item whose category already has a group: push onto it. */
  lemma GroupStepExisting(items: seq<Item>, n: int, keys: seq<Category>, groups: map<Category, seq<Item>>,
                          g: map<Category, seq<Item>>)
    requires 0 <= n < |items| && keys == CategoryOrder(items[..n])
    requires forall c :: c in groups <==> c in keys
    requires forall c :: c in groups ==> groups[c] == OfCategory(items[..n], c)
    requires items[n].category in groups
    requires g == groups[items[n].category := groups[items[n].category] + [items[n]]]
    ensures keys == CategoryOrder(items[..n + 1])
    ensures forall c :: c in g <==> c in keys
    ensures forall c :: c in g ==> g[c] == OfCategory(items[..n + 1], c)
  {
    CategoryOrderStep(items, n);
    GroupStepFilter(items, n, groups, g);
  }

  /** A step of the loop on the first item of its category: create its group holding just it. */
  lemma GroupStepNew(items: seq<Item>, n: int, keys: seq<Category>, groups: map<Category, seq<Item>>,
                     g: map<Category, seq<Item>>)
    requires 0 <= n < |items| && keys == CategoryOrder(items[..n])
    requires forall c :: c in groups <==> c in keys
    requires forall c :: c in groups ==> groups[c] == OfCategory(items[..n], c)
    requires items[n].category !in groups
    requires g == groups[items[n].category := []][items[n].category := [] + [items[n]]]
    ensures keys + [items[n].category] == CategoryOrder(items[..n + 1])
    ensures forall c :: c in g <==> c in keys + [items[n].category]
    ensures forall c :: c in g ==> g[c] == OfCategory(items[..n + 1], c)
  {
    CategoryOrderStep(items, n);
    UnlistedCategoryIsEmpty(items[..n], items[n].category);
    GroupStepFilter(items, n, groups[items[n].category := []], g);
  }

  lemma GroupsAreFilters(items: seq<Item>, groups: map<Category, seq<Item>>)
    requires forall c :: c in groups ==> groups[c] == OfCategory(items, c)
    ensures forall c :: c in groups ==> groups[c] == Filter(items, InCategory(c))
  {
    forall c | c in groups ensures groups[c] == Filter(items, InCategory(c)) {
      OfCategoryIsFilter(items, c);
    }
  }

  /** `groupedItems`: the accumulator is filled item by item, creating a category's list on its first
      item and pushing onto it afterwards. The keys follow first appearance and each group holds
      exactly its category's items in their order. */
  method GroupByCategory(items: seq<Item>) returns (keys: seq<Category>, groups: map<Category, seq<Item>>)
    ensures keys == CategoryOrder(items)
    ensures forall c :: c in groups <==> c in keys
    ensures forall c :: c in groups ==> groups[c] == Filter(items, InCategory(c))
    ensures forall i :: 0 <= i < |items| ==> items[i].category in groups && items[i] in groups[items[i].category]
    ensures |groups| == 0 <==> |items| == 0
  {
    keys, groups := [], map[];
    var n := 0;
    while n < |items|
      invariant 0 <= n <= |items|
      invariant keys == CategoryOrder(items[..n])
      invariant forall c :: c in groups <==> c in keys
      invariant forall c :: c in groups ==> groups[c] == OfCategory(items[..n], c)
    {
      var c := items[n].category;
      if c !in groups {
        GroupStepNew(items, n, keys, groups, groups[c := []][c := [] + [items[n]]]);
        groups := groups[c := []];
        keys := keys + [c];
      } else {
        GroupStepExisting(items, n, keys, groups, groups[c := groups[c] + [items[n]]]);
      }
      groups := groups[c := groups[c] + [items[n]]];
      n := n + 1;
    }
    assert items[..n] == items;
    GroupsAreFilters(items, groups);
    CategoryOrderSpec(items);
    if items != [] {
      assert items[0].category in groups;
    }
  }

  const DefaultFormValues: FormValues := FormValues("", "pizza", "", Some(""))

  /** `handleEdit(item)` fills the form with the item; an absent description becomes ''. */
  function Prefill(item: Item, show: real -> string): (r: FormValues)
    ensures r.name == item.name && ParseCategory(r.category) == Some(item.category)
    ensures r.price == show(item.price)
    ensures item.description.Some? ==> r.description == item.description
    ensures item.description.None? ==> r.description == Some("")
  {
    CategoryRoundTrip(item.category);
    FormValues(item.name, CategoryName(item.category), show(item.price), Some(item.description.GetOr("")))
  }

  /** The updates `handleSubmit` sends when editing: every field but the id, the description key
      always present. */
  function UpdatesFor(d: ItemData): (u: ItemUpdates)
    ensures forall it: Item :: Merge(it, u) == Item(it.id, d.name, d.category, d.price, d.description)
  {
    ItemUpdates(None, Some(d.name), Some(d.category), Some(d.price), Some(d.description))
  }

  /** The fields `handleSubmit` passes to `addItem` when adding. */
  function FieldsFor(d: ItemData): (f: ItemFields)
    ensures forall id: string :: WithId(f, id) == Item(id, d.name, d.category, d.price, d.description)
  {
    ItemFields(d.name, d.category, d.price, d.description)
  }

  /** Saving an edit without changing anything gives back the item, except that an absent
      description comes back as ''. */
  lemma UnchangedEditRoundTrip(item: Item, show: real -> string, parse: string -> Option<real>)
    requires MinNameLength <= Utf16Length(item.name) <= MaxNameLength && item.price > 0.0
    requires item.description.None? || Utf16Length(item.description.value) <= MaxDescriptionLength
    requires parse(show(item.price)) == Some(item.price)
    ensures Validate(Prefill(item, show), parse).Success?
    ensures Merge(item, UpdatesFor(Validate(Prefill(item, show), parse).value)) ==
      item.(description := Some(item.description.GetOr("")))
  {
    CategoryRoundTrip(item.category);
  }

  /** The list that saving writes: the edited item merged in place, or the new item appended. */
  function SavedList(current: seq<Item>, editing: Option<Item>, d: ItemData, freshId: string): (r: seq<Item>)
    ensures editing.None? ==> |r| == |current| + 1 && r[..|current|] == current
    ensures editing.None? ==> r[|current|] == Item(freshId, d.name, d.category, d.price, d.description)
    ensures editing.Some? ==> |r| == |current|
    ensures editing.Some? && IdAbsent(current, editing.value.id) ==> r == current
    ensures editing.Some? ==>
      forall k :: 0 <= k < |current| && current[k].id == editing.value.id && IdAbsent(current[..k], editing.value.id)
        ==> r == current[k := Item(current[k].id, d.name, d.category, d.price, d.description)]
  {
    if editing.Some? then UpdateFirst(current, editing.value.id, UpdatesFor(d))
    else current + [WithId(FieldsFor(d), freshId)]
  }

  /** The screen's state: the item list it shows, the item being edited, the dialog and its form. */
  class ItemManagementView {
    const store: StorageManager
    var items: seq<Item>
    var editingItem: Option<Item>
    var isDialogOpen: bool
    var form: FormValues

    constructor (store: StorageManager)
      ensures this.store == store && items == [] && editingItem == None
      ensures !isDialogOpen && form == DefaultFormValues
    {
      this.store := store;
      items, editingItem, isDialogOpen, form := [], None, false, DefaultFormValues;
    }

    method LoadItems()
      modifies this, store
      ensures items == old(store.CurrentItems()) && store.items == Some(items)
      ensures store.invoices == old(store.invoices) && store.counter == old(store.counter) && store.issued == old(store.issued)
      ensures editingItem == old(editingItem) && isDialogOpen == old(isDialogOpen) && form == old(form)
    {
      items := store.GetItems();
    }

    method ResetForm()
      modifies this
      ensures form == DefaultFormValues && editingItem == None
      ensures items == old(items) && isDialogOpen == old(isDialogOpen)
    {
      form := DefaultFormValues;
      editingItem := None;
    }

    /** The submit handler, which runs only on the values the schema accepted from the form: it
        updates the edited item or adds a new one (`freshId` stands for `Date.now()`), reloads the list, closes the dialog and
        clears the form and the edited item. */
    method HandleSubmit(data: ItemData, freshId: string, parse: string -> Option<real>)
      requires Validate(form, parse) == Success(data)
      modifies this, store
      ensures store.items == Some(SavedList(old(store.CurrentItems()), old(editingItem), data, freshId))
      ensures items == SavedList(old(store.CurrentItems()), old(editingItem), data, freshId)
      ensures store.invoices == old(store.invoices) && store.counter == old(store.counter) && store.issued == old(store.issued)
      ensures editingItem == None && !isDialogOpen && form == DefaultFormValues
    {
      if editingItem.Some? {
        store.UpdateItem(editingItem.value.id, UpdatesFor(data));
      } else {
        var _ := store.AddItem(FieldsFor(data), freshId);
      }
      LoadItems();
      isDialogOpen := false;
      ResetForm();
    }

    method HandleEdit(item: Item, show: real -> string)
      modifies this
      ensures editingItem == Some(item) && form == Prefill(item, show) && isDialogOpen
      ensures items == old(items)
    {
      editingItem := Some(item);
      form := Prefill(item, show);
      isDialogOpen := true;
    }

    method HandleDelete(item: Item)
      modifies this, store
      ensures store.items == Some(RemoveItem(old(store.CurrentItems()), item.id))
      ensures items == RemoveItem(old(store.CurrentItems()), item.id)
      ensures store.invoices == old(store.invoices) && store.counter == old(store.counter) && store.issued == old(store.issued)
      ensures editingItem == old(editingItem) && isDialogOpen == old(isDialogOpen) && form == old(form)
    {
      store.DeleteItem(item.id);
      LoadItems();
    }
  }
}
