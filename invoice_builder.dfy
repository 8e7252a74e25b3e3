/** The document state of the builder page and its layer operations.
    Every layer operation recomputes `grandTotal` from the new layer list. */
module InvoiceBuilder {
  import opened Wrappers
  import opened InvoiceTypes
  import opened Seqs
  import opened LayerEditor

  function SubtotalOf(layer: Layer): real { layer.subtotal }

  /** `calculateGrandTotal`: `layers.reduce((total, layer) => total + layer.subtotal, 0)`. */
  function GrandTotal(layers: seq<Layer>): (r: real)
    ensures layers == [] ==> r == 0.0
  {
    Sum(layers, SubtotalOf)
  }

  /** Layers with no negative subtotal give no negative grand total. */
  lemma GrandTotalNonNegative(layers: seq<Layer>)
    requires forall l :: l in layers ==> l.subtotal >= 0.0
    ensures GrandTotal(layers) >= 0.0
  {
    SumNonNegative(layers, SubtotalOf);
  }

  /** The invariant of the recalculation rule, at all three levels:
      amount = qty * rate, subtotal = sum of amounts, grandTotal = sum of subtotals. */
  predicate Consistent(d: InvoiceData)
  {
    && (forall l :: l in d.layers ==> LayerConsistent(l))
    && d.grandTotal == GrandTotal(d.layers)
  }

  /** `initialData`. The two dates are computed from the clock in the source
      and are parameters here. */
  function InitialData(invoiceDate: string, dueDate: string): (r: InvoiceData)
    ensures Consistent(r)
    ensures |r.layers| == 1 && r.layers[0].id == "1"
    ensures r.layers[0].items == [InvoiceItem("1", "Initial Project Work", 1.0, 5000.0, 5000.0)]
    ensures r.layers[0].items[0].amount == 5000.0
    ensures r.layers[0].subtotal == 5000.0 && r.grandTotal == 5000.0
    ensures r.invoiceDate == invoiceDate && r.dueDate == dueDate
  {
    var item := InvoiceItem("1", "Initial Project Work", 1.0, 5000.0, 5000.0);
    var layer := Layer("1", "Project Work", 100.0, [item], 5000.0, "Project work completed");
    SumSingleton(item, AmountOf);
    SumSingleton(layer, SubtotalOf);
    InvoiceData(
      "INV-2025-01", "SO-2025-01", invoiceDate, dueDate,
      "Dezprox Pvt Ltd", "LEV Labs", "+91 9876543210", "contact@levlabs.com",
      "123 Business Street, City, State 12345",
      "State Bank of India", "Dezprox LLP", "1234567890", "SBIN0001234",
      "N R Bharanidharan", "Authorized Signatory", "",
      Some([Signature("pub-1", "Agnel", "/Agnel_Signature.png?v=2", "image/png", 0.0, 0.0, 0.0),
            Signature("pub-2", "Bharani", "/Bharani_signature.png?v=2", "image/png", 0.0, 0.0, 0.0),
            Signature("pub-3", "Dinesh", "/dinesh_signature.png?v=2", "image/png", 0.0, 0.0, 0.0),
            Signature("pub-4", "Mohan", "/Mohan_signature.png?v=2", "image/png", 0.0, 0.0, 0.0)]),
      Some("Agnel"),
      [layer],
      5000.0, 0.0, true, true,
      None,
      5000.0)
  }

  /** The layer `addLayer` creates. */
  function NewLayer(freshId: string): (r: Layer)
    ensures r.id == freshId && r.title == "New Layer"
    ensures r.items == [] && r.subtotal == 0.0 && LayerConsistent(r)
  {
    Layer(freshId, "New Layer", 0.0, [], 0.0, "")
  }

  /** `{ ...prev, layers: newLayers, grandTotal: calculateGrandTotal(newLayers) }` */
  function WithLayers(d: InvoiceData, newLayers: seq<Layer>): (r: InvoiceData)
    ensures r.layers == newLayers && r.grandTotal == GrandTotal(newLayers)
    ensures r == d.(layers := r.layers, grandTotal := r.grandTotal)
  {
    d.(layers := newLayers, grandTotal := GrandTotal(newLayers))
  }

  /** `addLayer`: appends one empty layer; the grand total does not move. */
  function AddLayerTo(d: InvoiceData, freshId: string): (r: InvoiceData)
    ensures r.layers == d.layers + [NewLayer(freshId)]
    ensures r.grandTotal == GrandTotal(r.layers) == GrandTotal(d.layers)
    ensures r == d.(layers := r.layers, grandTotal := r.grandTotal)
    ensures Consistent(d) ==> Consistent(r) && r.grandTotal == d.grandTotal
  {
    SumAppend(d.layers, [NewLayer(freshId)], SubtotalOf);
    SumSingleton(NewLayer(freshId), SubtotalOf);
    WithLayers(d, d.layers + [NewLayer(freshId)])
  }

  /** `updateLayer`: the patch is merged into every layer whose id matches,
      and only into those. */
  function UpdateLayerIn(d: InvoiceData, layerId: string, p: LayerPatch): (r: InvoiceData)
    ensures |r.layers| == |d.layers|
    ensures forall i :: 0 <= i < |d.layers| && d.layers[i].id == layerId ==>
              r.layers[i] == MergeLayer(d.layers[i], p)
    ensures forall i :: 0 <= i < |d.layers| && d.layers[i].id != layerId ==>
              r.layers[i] == d.layers[i]
    ensures r.grandTotal == GrandTotal(r.layers)
    ensures r == d.(layers := r.layers, grandTotal := r.grandTotal)
    ensures Consistent(d) && PatchKeepsTotals(p) ==> Consistent(r)
  {
    var ls := d.layers;
    var newLayers := seq(|ls|, i requires 0 <= i < |ls| =>
                           if ls[i].id == layerId then MergeLayer(ls[i], p) else ls[i]);
    assert forall l :: l in newLayers ==> exists i :: 0 <= i < |ls| && newLayers[i] == l;
    UpdatedLayersConsistent(ls, newLayers, layerId, p);
    WithLayers(d, newLayers)
  }

  lemma UpdatedLayersConsistent(ls: seq<Layer>, newLayers: seq<Layer>, layerId: string, p: LayerPatch)
    requires |newLayers| == |ls|
    requires forall i :: 0 <= i < |ls| ==>
               newLayers[i] == if ls[i].id == layerId then MergeLayer(ls[i], p) else ls[i]
    ensures (forall l :: l in ls ==> LayerConsistent(l)) && PatchKeepsTotals(p) ==>
              forall l :: l in newLayers ==> LayerConsistent(l)
  {
    if (forall l :: l in ls ==> LayerConsistent(l)) && PatchKeepsTotals(p) {
      forall i | 0 <= i < |ls|
        ensures LayerConsistent(newLayers[i])
      {
        assert ls[i] in ls;
        if ls[i].id == layerId {
          MergeKeepsLayerConsistent(ls[i], p);
        }
      }
    }
  }

  function KeepOtherLayer(layerId: string): Layer -> bool
  {
    (l: Layer) => l.id != layerId
  }

  /** `deleteLayer`: keeps exactly the layers whose id differs, in order;
      deleting every layer leaves a grand total of 0. */
  function DeleteLayerFrom(d: InvoiceData, layerId: string): (r: InvoiceData)
    ensures r.layers == Filter(d.layers, KeepOtherLayer(layerId))
    ensures forall l :: l in r.layers <==> l in d.layers && l.id != layerId
    ensures forall l :: multiset(r.layers)[l] == if l.id != layerId then multiset(d.layers)[l] else 0
    ensures IsSubsequence(r.layers, d.layers)
    ensures r.grandTotal == GrandTotal(r.layers)
    ensures r == d.(layers := r.layers, grandTotal := r.grandTotal)
    ensures (forall l :: l in d.layers ==> l.id == layerId) ==> r.layers == [] && r.grandTotal == 0.0
    ensures Consistent(d) ==> Consistent(r)
  {
    var newLayers := Filter(d.layers, KeepOtherLayer(layerId));
    FilterIsSubsequence(d.layers, KeepOtherLayer(layerId));
    FilterCount(d.layers, KeepOtherLayer(layerId));
    SumOfEmptyFilter(d.layers, SubtotalOf, KeepOtherLayer(layerId));
    WithLayers(d, newLayers)
  }

  /** The two levels compose: an item operation of a layer's editor, handed
      to `updateLayer` under that layer's id, keeps the whole document consistent. */
  lemma {:induction false} ItemEditsKeepDocumentConsistent(d: InvoiceData, layer: Layer, freshId: string,
                                                          itemId: string, p: ItemPatch)
    requires Consistent(d) && layer in d.layers
    ensures Consistent(UpdateLayerIn(d, layer.id, AddItem(layer, freshId)))
    ensures Consistent(UpdateLayerIn(d, layer.id, UpdateItem(layer, itemId, p)))
    ensures Consistent(UpdateLayerIn(d, layer.id, DeleteItem(layer, itemId)))
  {
  }

  /** Adding an item to a layer whose id is unique leaves the grand total unchanged. */
  lemma {:induction false} AddItemKeepsGrandTotal(d: InvoiceData, layer: Layer, freshId: string)
    requires Consistent(d) && layer in d.layers
    requires forall m :: m in d.layers && m.id == layer.id ==> m == layer
    ensures UpdateLayerIn(d, layer.id, AddItem(layer, freshId)).grandTotal == d.grandTotal
  {
    var r := UpdateLayerIn(d, layer.id, AddItem(layer, freshId));
    forall i | 0 <= i < |d.layers|
      ensures SubtotalOf(r.layers[i]) == SubtotalOf(d.layers[i])
    {
      assert d.layers[i] in d.layers;
    }
    SumCongruent(r.layers, d.layers, SubtotalOf);
  }

  /** On a document with a single layer, updating that layer recomputes the
      grand total as that layer's new subtotal. */
  lemma SingleLayerUpdate(d: InvoiceData, p: LayerPatch)
    requires |d.layers| == 1
    ensures UpdateLayerIn(d, d.layers[0].id, p).layers == [MergeLayer(d.layers[0], p)]
    ensures UpdateLayerIn(d, d.layers[0].id, p).grandTotal == MergeLayer(d.layers[0], p).subtotal
  {
    var r := UpdateLayerIn(d, d.layers[0].id, p);
    assert r.layers == [MergeLayer(d.layers[0], p)];
    SumSingleton(MergeLayer(d.layers[0], p), SubtotalOf);
  }

  /** The totals of the recalculation scenario, run from `d0` through the real
      operations: add an item to layer "1" and set it to 2 x 1500, then delete
      item "1". The grand total goes 5000, 8000, 3000. */
  ghost predicate ScenarioTotals(d0: InvoiceData)
    requires |d0.layers| == 1 && d0.layers[0].id == "1"
  {
    var d1 := UpdateLayerIn(d0, "1", AddItem(d0.layers[0], "2"));
    var d2 := UpdateLayerIn(d1, "1", UpdateItem(d1.layers[0], "2", EmptyItemPatch.(qty := Some(2.0))));
    var d3 := UpdateLayerIn(d2, "1", UpdateItem(d2.layers[0], "2", EmptyItemPatch.(rate := Some(1500.0))));
    var d4 := UpdateLayerIn(d3, "1", DeleteItem(d3.layers[0], "1"));
    && d1.grandTotal == 5000.0
    && d3.layers[0].subtotal == 8000.0 && d3.grandTotal == 8000.0
    && d4.layers[0].subtotal == 3000.0 && d4.grandTotal == 3000.0
  }

  /** The recalculation scenario on any one-layer document whose layer "1"
      holds the single item 1 x 5000. */
  lemma DocumentScenario(d0: InvoiceData)
    requires |d0.layers| == 1 && d0.layers[0].id == "1"
    requires d0.layers[0].items == [InvoiceItem("1", "Initial Project Work", 1.0, 5000.0, 5000.0)]
    requires d0.layers[0].subtotal == 5000.0
    ensures ScenarioTotals(d0)
  {
    var l0 := d0.layers[0];
    var d1 := UpdateLayerIn(d0, "1", AddItem(l0, "2"));
    SingleLayerUpdate(d0, AddItem(l0, "2"));
    var l1 := d1.layers[0];
    var p2 := UpdateItem(l1, "2", EmptyItemPatch.(qty := Some(2.0)));
    var d2 := UpdateLayerIn(d1, "1", p2);
    SingleLayerUpdate(d1, p2);
    var l2 := d2.layers[0];
    var p3 := UpdateItem(l2, "2", EmptyItemPatch.(rate := Some(1500.0)));
    var d3 := UpdateLayerIn(d2, "1", p3);
    SingleLayerUpdate(d2, p3);
    var l3 := d3.layers[0];
    var p4 := DeleteItem(l3, "1");
    SingleLayerUpdate(d3, p4);
    LayerScenario(l0);
  }

  /** The recalculation scenario on the initial document. */
  lemma RecalculationScenario(today: string, due: string)
    ensures ScenarioTotals(InitialData(today, due))
  {
    DocumentScenario(InitialData(today, due));
  }

  /** The builder page's state: `const [invoiceData, setInvoiceData] = useState(initialData)`. */
  class Builder {
    var data: InvoiceData

    constructor(invoiceDate: string, dueDate: string)
      ensures data == InitialData(invoiceDate, dueDate)
      ensures Consistent(data)
    {
      data := InitialData(invoiceDate, dueDate);
    }

    /** `updateInvoiceData`: a shallow merge of the patch into the state. */
    method UpdateInvoiceData(patch: DataPatch)
      modifies this
      ensures data == MergeData(old(data), patch)
      ensures patch.layers.None? && patch.grandTotal.None? && Consistent(old(data)) ==> Consistent(data)
    {
      data := MergeData(data, patch);
    }

    method AddLayer(freshId: string)
      modifies this
      ensures data == AddLayerTo(old(data), freshId)
      ensures data.grandTotal == GrandTotal(data.layers)
      ensures Consistent(old(data)) ==> Consistent(data) && data.grandTotal == old(data.grandTotal)
    {
      data := AddLayerTo(data, freshId);
    }

    method UpdateLayer(layerId: string, patch: LayerPatch)
      modifies this
      ensures data == UpdateLayerIn(old(data), layerId, patch)
      ensures data.grandTotal == GrandTotal(data.layers)
      ensures Consistent(old(data)) && PatchKeepsTotals(patch) ==> Consistent(data)
    {
      data := UpdateLayerIn(data, layerId, patch);
    }

    method DeleteLayer(layerId: string)
      modifies this
      ensures data == DeleteLayerFrom(old(data), layerId)
      ensures data.grandTotal == GrandTotal(data.layers)
      ensures Consistent(old(data)) ==> Consistent(data)
    {
      data := DeleteLayerFrom(data, layerId);
    }
  }
}
