/** The item operations of one layer. Each emits the patch
    `{ items, subtotal }` that the editor hands to its `onUpdate` callback. */
module LayerEditor {
  import opened Wrappers
  import opened InvoiceTypes
  import opened Seqs

  function AmountOf(item: InvoiceItem): real { item.amount }

  /** `calculateSubtotal`: `items.reduce((sum, item) => sum + item.amount, 0)`. */
  function Subtotal(items: seq<InvoiceItem>): (r: real)
    ensures items == [] ==> r == 0.0
  {
    Sum(items, AmountOf)
  }

  /** Items with no negative amount give no negative subtotal. */
  lemma SubtotalNonNegative(items: seq<InvoiceItem>)
    requires forall it :: it in items ==> it.amount >= 0.0
    ensures Subtotal(items) >= 0.0
  {
    SumNonNegative(items, AmountOf);
  }

  /** An item whose amount is its quantity times its rate. */
  predicate AmountConsistent(item: InvoiceItem)
  {
    item.amount == item.qty * item.rate
  }

  /** Both levels of the recalculation rule hold for a layer. */
  predicate LayerConsistent(layer: Layer)
  {
    && (forall it :: it in layer.items ==> AmountConsistent(it))
    && layer.subtotal == Subtotal(layer.items)
  }

  /** A patch that sets the item list sets the subtotal to its sum, and a
      patch that leaves the items alone leaves the subtotal alone; every item
      it carries has a consistent amount. */
  predicate PatchKeepsTotals(p: LayerPatch)
  {
    && (p.items.Some? <==> p.subtotal.Some?)
    && (p.items.Some? ==>
          && p.subtotal.value == Subtotal(p.items.value)
          && forall it :: it in p.items.value ==> AmountConsistent(it))
  }

  /** The patch the editor emits: only `items` and `subtotal` are present,
      and the subtotal is the sum of the emitted amounts. */
  predicate IsItemsPatch(p: LayerPatch)
  {
    && p.items.Some?
    && p.subtotal == Some(Subtotal(p.items.value))
    && p.id.None? && p.title.None? && p.responsibilityPercent.None? && p.remarks.None?
  }

  function ItemsPatch(items: seq<InvoiceItem>): (r: LayerPatch)
    ensures IsItemsPatch(r) && r.items == Some(items)
  {
    EmptyLayerPatch.(items := Some(items), subtotal := Some(Subtotal(items)))
  }

  /** The item `addItem` creates. */
  function NewItem(freshId: string): (r: InvoiceItem)
    ensures r.id == freshId && r.description == ""
    ensures r.qty == 1.0 && r.rate == 0.0 && r.amount == 0.0
  {
    InvoiceItem(freshId, "", 1.0, 0.0, 0.0)
  }

  lemma {:induction false} SubtotalAppend(items: seq<InvoiceItem>, extra: seq<InvoiceItem>)
    ensures Subtotal(items + extra) == Subtotal(items) + Subtotal(extra)
  {
    SumAppend(items, extra, AmountOf);
  }

  /** `addItem`: appends one blank item; the subtotal does not move. */
  function AddItem(layer: Layer, freshId: string): (r: LayerPatch)
    ensures IsItemsPatch(r)
    ensures r.items == Some(layer.items + [NewItem(freshId)])
    ensures r.subtotal == Some(Subtotal(layer.items))
    ensures LayerConsistent(layer) ==> PatchKeepsTotals(r) && r.subtotal == Some(layer.subtotal)
  {
    var newItems := layer.items + [NewItem(freshId)];
    SubtotalAppend(layer.items, [NewItem(freshId)]);
    SumSingleton(NewItem(freshId), AmountOf);
    ItemsPatch(newItems)
  }

  /** `{ ...item, ...patch }` followed by `amount = qty * rate`. */
  function RecalculatedItem(item: InvoiceItem, p: ItemPatch): (r: InvoiceItem)
    ensures AmountConsistent(r)
    ensures r.(amount := 0.0) == MergeItem(item, p).(amount := 0.0)
  {
    var merged := MergeItem(item, p);
    merged.(amount := merged.qty * merged.rate)
  }

  /** `updateItem`: every item whose id matches gets the patch and a
      recomputed amount, even when the patch carries an amount of its own;
      every other item is kept as it is. */
  function UpdateItem(layer: Layer, itemId: string, p: ItemPatch): (r: LayerPatch)
    ensures IsItemsPatch(r)
    ensures |r.items.value| == |layer.items|
    ensures forall i :: 0 <= i < |layer.items| && layer.items[i].id == itemId ==>
              && r.items.value[i].amount == r.items.value[i].qty * r.items.value[i].rate
              && r.items.value[i] == RecalculatedItem(layer.items[i], p)
    ensures forall i :: 0 <= i < |layer.items| && layer.items[i].id != itemId ==>
              r.items.value[i] == layer.items[i]
    ensures LayerConsistent(layer) ==> PatchKeepsTotals(r)
  {
    var items := layer.items;
    var newItems := seq(|items|, i requires 0 <= i < |items| =>
                          if items[i].id == itemId then RecalculatedItem(items[i], p) else items[i]);
    assert forall it :: it in newItems ==> exists i :: 0 <= i < |items| && newItems[i] == it;
    ItemsPatch(newItems)
  }

  function KeepOtherItem(itemId: string): InvoiceItem -> bool
  {
    (it: InvoiceItem) => it.id != itemId
  }

  function IsMatching(itemId: string): InvoiceItem -> bool
  {
    (it: InvoiceItem) => it.id == itemId
  }

  /** `deleteItem`: keeps exactly the items whose id differs, in order. */
  function DeleteItem(layer: Layer, itemId: string): (r: LayerPatch)
    ensures IsItemsPatch(r)
    ensures forall it :: it in r.items.value <==> it in layer.items && it.id != itemId
    ensures IsSubsequence(r.items.value, layer.items)
    ensures r.items.value == Filter(layer.items, KeepOtherItem(itemId))
    ensures (forall it :: it in layer.items ==> it.id == itemId) ==>
              r.items == Some([]) && r.subtotal == Some(0.0)
    ensures LayerConsistent(layer) ==> PatchKeepsTotals(r)
  {
    var newItems := Filter(layer.items, KeepOtherItem(itemId));
    FilterIsSubsequence(layer.items, KeepOtherItem(itemId));
    SumOfEmptyFilter(layer.items, AmountOf, KeepOtherItem(itemId));
    ItemsPatch(newItems)
  }

  /** Deleting lowers the subtotal by exactly the amounts of the removed items. */
  lemma DeleteItemSubtotal(layer: Layer, itemId: string)
    ensures DeleteItem(layer, itemId).subtotal.value
            == Subtotal(layer.items) - Sum(Filter(layer.items, IsMatching(itemId)), AmountOf)
  {
    SumPartition(layer.items, AmountOf, KeepOtherItem(itemId), IsMatching(itemId));
  }

  /** Deleting again changes nothing. */
  lemma DeleteItemIdempotent(layer: Layer, itemId: string)
    ensures DeleteItem(layer.(items := DeleteItem(layer, itemId).items.value), itemId)
            == DeleteItem(layer, itemId)
  {
    FilterIdempotent(layer.items, KeepOtherItem(itemId));
  }

  /** Recomputing the subtotal of a consistent layer reproduces it: no drift. */
  lemma UpdateWithEmptyPatchKeepsConsistentLayer(layer: Layer, itemId: string)
    requires LayerConsistent(layer)
    ensures UpdateItem(layer, itemId, EmptyItemPatch).items == Some(layer.items)
    ensures UpdateItem(layer, itemId, EmptyItemPatch).subtotal == Some(layer.subtotal)
  {
    var r := UpdateItem(layer, itemId, EmptyItemPatch);
    forall i | 0 <= i < |layer.items|
      ensures r.items.value[i] == layer.items[i]
    {
      assert layer.items[i] in layer.items;
      assert MergeItem(layer.items[i], EmptyItemPatch) == layer.items[i];
    }
    assert r.items.value == layer.items;
  }

  /** Merging a total-keeping patch into a consistent layer gives a consistent layer. */
  lemma MergeKeepsLayerConsistent(layer: Layer, p: LayerPatch)
    requires LayerConsistent(layer) && PatchKeepsTotals(p)
    ensures LayerConsistent(MergeLayer(layer, p))
  {
  }

  /** The item steps of the recalculation scenario on one layer. */
  lemma LayerScenario(l0: Layer)
    requires l0.id == "1" && l0.items == [InvoiceItem("1", "Initial Project Work", 1.0, 5000.0, 5000.0)]
    ensures var l1 := MergeLayer(l0, AddItem(l0, "2"));
            var l2 := MergeLayer(l1, UpdateItem(l1, "2", EmptyItemPatch.(qty := Some(2.0))));
            var l3 := MergeLayer(l2, UpdateItem(l2, "2", EmptyItemPatch.(rate := Some(1500.0))));
            var l4 := MergeLayer(l3, DeleteItem(l3, "1"));
            && l1.id == l2.id == l3.id == "1"
            && l1.subtotal == 5000.0
            && l3.items[1].amount == 3000.0 && l3.subtotal == 8000.0
            && l4.items == [l3.items[1]] && l4.subtotal == 3000.0
  {
    var item1 := l0.items[0];
    SumSingleton(item1, AmountOf);
    var l1 := MergeLayer(l0, AddItem(l0, "2"));
    assert l1.items == [item1, NewItem("2")];
    var l2 := MergeLayer(l1, UpdateItem(l1, "2", EmptyItemPatch.(qty := Some(2.0))));
    var item2 := InvoiceItem("2", "", 2.0, 0.0, 0.0);
    assert l2.items == [item1, item2];
    var l3 := MergeLayer(l2, UpdateItem(l2, "2", EmptyItemPatch.(rate := Some(1500.0))));
    var item3 := InvoiceItem("2", "", 2.0, 1500.0, 3000.0);
    assert l3.items == [item1, item3] == [item1] + [item3];
    SubtotalAppend([item1], [item3]);
    SumSingleton(item3, AmountOf);
    var l4 := MergeLayer(l3, DeleteItem(l3, "1"));
    FilterAppend([item1], [item3], KeepOtherItem("1"));
    assert l4.items == [item3];
  }
}
