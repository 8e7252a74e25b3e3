/** The invoice records and their `Partial<...>` patches.
    Money and quantities are real numbers; identifiers and texts are strings. */
module InvoiceTypes {
  import opened Wrappers

  /** One billable line; `amount` is derived from `qty * rate`. */
  datatype InvoiceItem = InvoiceItem(
    id: string,
    description: string,
    qty: real,
    rate: real,
    amount: real)

  /** A named group of items with its derived `subtotal`. */
  datatype Layer = Layer(
    id: string,
    title: string,
    responsibilityPercent: real,
    items: seq<InvoiceItem>,
    subtotal: real,
    remarks: string)

  /** Signature metadata held for the editing session. */
  datatype Signature = Signature(
    id: string,
    name: string,
    src: string,
    mimeType: string,
    size: real,
    width: real,
    height: real)

  /** The whole document. The optional properties `signatures?` and
      `selectedSignatureName?` are `Option`s; so is `notes`, which the
      record type declares but the initial document leaves out. */
  datatype InvoiceData = InvoiceData(
    invoiceNumber: string,
    soNumber: string,
    invoiceDate: string,
    dueDate: string,
    companyName: string,
    clientName: string,
    clientPhone: string,
    clientEmail: string,
    clientAddress: string,
    bankName: string,
    accountName: string,
    accountNumber: string,
    ifscCode: string,
    signatoryName: string,
    signatoryRole: string,
    signatureImage: string,
    signatures: Option<seq<Signature>>,
    selectedSignatureName: Option<string>,
    layers: seq<Layer>,
    dueAmount: real,
    paidAmount: real,
    showDueAmount: bool,
    showPaidAmount: bool,
    notes: Option<string>,
    grandTotal: real)

  /** `Partial<InvoiceItem>`: a field that is `Some` overrides, `None` is absent. */
  datatype ItemPatch = ItemPatch(
    id: Option<string>,
    description: Option<string>,
    qty: Option<real>,
    rate: Option<real>,
    amount: Option<real>)

  /** `Partial<Layer>`. */
  datatype LayerPatch = LayerPatch(
    id: Option<string>,
    title: Option<string>,
    responsibilityPercent: Option<real>,
    items: Option<seq<InvoiceItem>>,
    subtotal: Option<real>,
    remarks: Option<string>)

  /** `Partial<InvoiceData>`. Setting an optional property is `Some(v)` with
      `v` itself an `Option`. */
  datatype DataPatch = DataPatch(
    invoiceNumber: Option<string>,
    soNumber: Option<string>,
    invoiceDate: Option<string>,
    dueDate: Option<string>,
    companyName: Option<string>,
    clientName: Option<string>,
    clientPhone: Option<string>,
    clientEmail: Option<string>,
    clientAddress: Option<string>,
    bankName: Option<string>,
    accountName: Option<string>,
    accountNumber: Option<string>,
    ifscCode: Option<string>,
    signatoryName: Option<string>,
    signatoryRole: Option<string>,
    signatureImage: Option<string>,
    signatures: Option<Option<seq<Signature>>>,
    selectedSignatureName: Option<Option<string>>,
    layers: Option<seq<Layer>>,
    dueAmount: Option<real>,
    paidAmount: Option<real>,
    showDueAmount: Option<bool>,
    showPaidAmount: Option<bool>,
    notes: Option<Option<string>>,
    grandTotal: Option<real>)

  const EmptyItemPatch := ItemPatch(None, None, None, None, None)
  const EmptyLayerPatch := LayerPatch(None, None, None, None, None, None)
  const EmptyDataPatch := DataPatch(None, None, None, None, None, None, None, None, None, None,
                                    None, None, None, None, None, None, None, None, None, None,
                                    None, None, None, None, None)

  /** `{ ...item, ...patch }` */
  function MergeItem(item: InvoiceItem, p: ItemPatch): (r: InvoiceItem)
    ensures p == EmptyItemPatch ==> r == item
  {
    InvoiceItem(p.id.GetOr(item.id), p.description.GetOr(item.description),
                p.qty.GetOr(item.qty), p.rate.GetOr(item.rate), p.amount.GetOr(item.amount))
  }

  /** `{ ...layer, ...patch }` */
  function MergeLayer(layer: Layer, p: LayerPatch): (r: Layer)
    ensures p == EmptyLayerPatch ==> r == layer
  {
    Layer(p.id.GetOr(layer.id), p.title.GetOr(layer.title),
          p.responsibilityPercent.GetOr(layer.responsibilityPercent),
          p.items.GetOr(layer.items), p.subtotal.GetOr(layer.subtotal), p.remarks.GetOr(layer.remarks))
  }

  /** `{ ...prev, ...patch }` */
  function MergeData(d: InvoiceData, p: DataPatch): (r: InvoiceData)
    ensures p == EmptyDataPatch ==> r == d
  {
    InvoiceData(
      p.invoiceNumber.GetOr(d.invoiceNumber), p.soNumber.GetOr(d.soNumber),
      p.invoiceDate.GetOr(d.invoiceDate), p.dueDate.GetOr(d.dueDate),
      p.companyName.GetOr(d.companyName), p.clientName.GetOr(d.clientName),
      p.clientPhone.GetOr(d.clientPhone), p.clientEmail.GetOr(d.clientEmail),
      p.clientAddress.GetOr(d.clientAddress), p.bankName.GetOr(d.bankName),
      p.accountName.GetOr(d.accountName), p.accountNumber.GetOr(d.accountNumber),
      p.ifscCode.GetOr(d.ifscCode), p.signatoryName.GetOr(d.signatoryName),
      p.signatoryRole.GetOr(d.signatoryRole), p.signatureImage.GetOr(d.signatureImage),
      p.signatures.GetOr(d.signatures), p.selectedSignatureName.GetOr(d.selectedSignatureName),
      p.layers.GetOr(d.layers), p.dueAmount.GetOr(d.dueAmount), p.paidAmount.GetOr(d.paidAmount),
      p.showDueAmount.GetOr(d.showDueAmount), p.showPaidAmount.GetOr(d.showPaidAmount),
      p.notes.GetOr(d.notes), p.grandTotal.GetOr(d.grandTotal))
  }

  /** Later fields win: `{ ...p, ...q }` on patches. */
  function CombineData(p: DataPatch, q: DataPatch): DataPatch
  {
    DataPatch(
      Later(p.invoiceNumber, q.invoiceNumber), Later(p.soNumber, q.soNumber),
      Later(p.invoiceDate, q.invoiceDate), Later(p.dueDate, q.dueDate),
      Later(p.companyName, q.companyName), Later(p.clientName, q.clientName),
      Later(p.clientPhone, q.clientPhone), Later(p.clientEmail, q.clientEmail),
      Later(p.clientAddress, q.clientAddress), Later(p.bankName, q.bankName),
      Later(p.accountName, q.accountName), Later(p.accountNumber, q.accountNumber),
      Later(p.ifscCode, q.ifscCode), Later(p.signatoryName, q.signatoryName),
      Later(p.signatoryRole, q.signatoryRole), Later(p.signatureImage, q.signatureImage),
      Later(p.signatures, q.signatures), Later(p.selectedSignatureName, q.selectedSignatureName),
      Later(p.layers, q.layers), Later(p.dueAmount, q.dueAmount), Later(p.paidAmount, q.paidAmount),
      Later(p.showDueAmount, q.showDueAmount), Later(p.showPaidAmount, q.showPaidAmount),
      Later(p.notes, q.notes), Later(p.grandTotal, q.grandTotal))
  }

  function Later<T>(a: Option<T>, b: Option<T>): Option<T>
  {
    if b.Some? then b else a
  }

  /** Two successive shallow merges are one merge of the combined patch. */
  lemma MergeDataTwice(d: InvoiceData, p: DataPatch, q: DataPatch)
    ensures MergeData(MergeData(d, p), q) == MergeData(d, CombineData(p, q))
  {
  }
}
