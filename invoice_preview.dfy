/** The preview's item table and footer, as values computed from the document. */
module InvoicePreview {
  import opened Wrappers
  import opened InvoiceTypes

  /** Row backgrounds: `bg-[#FFFFFF]` for even row indexes, `bg-[#F3FFF3]` for odd ones. */
  datatype Shade = White | Green

  /** An element of `allItems`: `{ item, layer, rowIndex }`. */
  datatype Entry = Entry(item: InvoiceItem, layer: Layer, rowIndex: nat)

  /** A table row: a real item, or one of the padding rows shown with blanks. */
  datatype Row =
    | ItemRow(number: nat, shade: Shade, description: string, qty: real, rate: real, amount: real)
    | EmptyRow(number: nat, shade: Shade)

  /** `minRows`: the table always shows at least this many rows. */
  const MinRows: nat := 5

  function Max(a: nat, b: nat): nat { if a < b then b else a }

  /** `layers.reduce((acc, curr) => acc + curr.items.length, 0)`. */
  function ItemCount(layers: seq<Layer>): nat
  {
    if |layers| == 0 then 0 else ItemCount(layers[..|layers| - 1]) + |layers[|layers| - 1].items|
  }

  /** The items of all layers, concatenated layer by layer: the reference order. */
  function FlatItems(layers: seq<Layer>): seq<InvoiceItem>
  {
    if layers == [] then [] else layers[0].items + FlatItems(layers[1..])
  }

  /** The entries of layer `li`: row index = items in layers before `li`, plus the item's index. */
  function EntriesOf(layers: seq<Layer>, li: nat): seq<Entry>
    requires li < |layers|
  {
    var items := layers[li].items;
    seq(|items|, j requires 0 <= j < |items| => Entry(items[j], layers[li], ItemCount(layers[..li]) + j))
  }

  /** `layers.flatMap(...)` from layer `li` on. */
  function EntriesFrom(layers: seq<Layer>, li: nat): seq<Entry>
    requires li <= |layers|
    decreases |layers| - li
  {
    if li == |layers| then [] else EntriesOf(layers, li) + EntriesFrom(layers, li + 1)
  }

  /** `allItems` */
  function AllItems(layers: seq<Layer>): (r: seq<Entry>)
    ensures |r| == ItemCount(layers)
    ensures forall k :: 0 <= k < |r| ==> r[k].rowIndex == k
  {
    EntriesFromPositions(layers, 0);
    assert layers[..0] == [] && layers[0..] == layers;
    ItemCountIsFlatLength(layers);
    EntriesFrom(layers, 0)
  }

  lemma ItemCountStep(layers: seq<Layer>, li: nat)
    requires li < |layers|
    ensures ItemCount(layers[..li + 1]) == ItemCount(layers[..li]) + |layers[li].items|
  {
    assert layers[..li + 1][..li] == layers[..li];
  }

  lemma {:induction false} ItemCountIsFlatLength(layers: seq<Layer>)
    ensures ItemCount(layers) == |FlatItems(layers)|
    decreases |layers|
  {
    if layers != [] {
      var n := |layers|;
      var init := layers[..n - 1];
      ItemCountIsFlatLength(init);
      FlatItemsAppend(init, [layers[n - 1]]);
      assert init + [layers[n - 1]] == layers;
      assert FlatItems([layers[n - 1]]) == layers[n - 1].items + FlatItems([]);
    }
  }

  lemma {:induction false} FlatItemsAppend(a: seq<Layer>, b: seq<Layer>)
    ensures FlatItems(a + b) == FlatItems(a) + FlatItems(b)
  {
    if a != [] {
      assert (a + b)[1..] == a[1..] + b;
      FlatItemsAppend(a[1..], b);
    } else {
      assert a + b == b;
    }
  }

  /** From layer `li` on, the k-th entry has row index (items before `li`) + k and
      carries the k-th item of the flattened remaining layers. */
  lemma {:induction false} EntriesFromPositions(layers: seq<Layer>, li: nat)
    requires li <= |layers|
    ensures |EntriesFrom(layers, li)| == |FlatItems(layers[li..])|
    ensures forall k :: 0 <= k < |EntriesFrom(layers, li)| ==>
              && EntriesFrom(layers, li)[k].rowIndex == ItemCount(layers[..li]) + k
              && EntriesFrom(layers, li)[k].item == FlatItems(layers[li..])[k]
    decreases |layers| - li
  {
    if li < |layers| {
      EntriesFromPositions(layers, li + 1);
      ItemCountStep(layers, li);
      assert layers[li..][1..] == layers[li + 1..];
      assert FlatItems(layers[li..]) == layers[li].items + FlatItems(layers[li + 1..]);
    }
  }

  /** Each item's row index is its position in the flattened item list. */
  lemma AllItemsPositions(layers: seq<Layer>)
    ensures |AllItems(layers)| == |FlatItems(layers)| == ItemCount(layers)
    ensures forall k :: 0 <= k < |AllItems(layers)| ==>
              AllItems(layers)[k].rowIndex == k && AllItems(layers)[k].item == FlatItems(layers)[k]
  {
    EntriesFromPositions(layers, 0);
    assert layers[0..] == layers;
    assert layers[..0] == [];
    ItemCountIsFlatLength(layers);
  }

  function ShadeOf(rowIndex: nat): Shade
  {
    if rowIndex % 2 == 0 then White else Green
  }

  function ItemRowOf(e: Entry): Row
  {
    ItemRow(e.rowIndex + 1, ShadeOf(e.rowIndex), e.item.description, e.item.qty, e.item.rate, e.item.amount)
  }

  /** The rows of the table body: item rows numbered on from 1, then padding
      rows up to `MinRows`, shaded by overall row index. */
  function TableRows(layers: seq<Layer>): (r: seq<Row>)
    ensures |r| == Max(|FlatItems(layers)|, MinRows)
    ensures forall k :: 0 <= k < |r| ==> r[k].number == k + 1 && r[k].shade == ShadeOf(k)
    ensures forall k :: 0 <= k < |r| ==> (r[k].ItemRow? <==> k < |FlatItems(layers)|)
    ensures forall k :: 0 <= k < |FlatItems(layers)| ==>
              var it := FlatItems(layers)[k];
              r[k] == ItemRow(k + 1, ShadeOf(k), it.description, it.qty, it.rate, it.amount)
  {
    var all := AllItems(layers);
    AllItemsPositions(layers);
    var totalRows := Max(|all|, MinRows);
    var emptyRowsCount := totalRows - |all|;
    seq(|all|, k requires 0 <= k < |all| => ItemRowOf(all[k]))
      + seq(emptyRowsCount, (index: nat) requires index < emptyRowsCount => EmptyRow(|all| + index + 1, ShadeOf(|all| + index)))
  }

  /** The number of padding rows is `max(n, 5) - n`. */
  lemma EmptyRowCount(layers: seq<Layer>)
    ensures |TableRows(layers)| - ItemCount(layers) == Max(ItemCount(layers), MinRows) - ItemCount(layers)
    ensures ItemCount(layers) >= MinRows ==> forall k :: 0 <= k < |TableRows(layers)| ==> TableRows(layers)[k].ItemRow?
  {
    AllItemsPositions(layers);
  }

  /** What the footer shows of the signature. */
  datatype SignatureView = SignatureImage(src: string) | NoSignature

  /** The footer's amounts and signature block. A `None` line is not rendered. */
  datatype Footer = Footer(
    grandTotal: real,
    dueLine: Option<real>,
    paidLine: Option<real>,
    signature: SignatureView,
    signatoryName: string,
    signatoryRole: string)

  function FooterOf(d: InvoiceData): (r: Footer)
    ensures r.grandTotal == d.grandTotal
    ensures r.dueLine.Some? <==> d.showDueAmount
    ensures r.dueLine.Some? ==> r.dueLine.value == d.dueAmount
    ensures r.paidLine.Some? <==> d.showPaidAmount
    ensures r.paidLine.Some? ==> r.paidLine.value == d.paidAmount
    ensures r.signature.SignatureImage? <==> d.signatureImage != ""
    ensures r.signature.SignatureImage? ==> r.signature.src == d.signatureImage
  {
    Footer(
      d.grandTotal,
      if d.showDueAmount then Some(d.dueAmount) else None,
      if d.showPaidAmount then Some(d.paidAmount) else None,
      if d.signatureImage != "" then SignatureImage(d.signatureImage) else NoSignature,
      d.signatoryName,
      d.signatoryRole)
  }
}
