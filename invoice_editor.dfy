/** The editor panel: one-field patches from the text and amount inputs,
    and the two "show in preview" toggles persisted in the key-value store. */
module InvoiceEditor {
  import opened Wrappers
  import opened Seqs
  import opened InvoiceTypes
  import opened KeyValueStore
  import opened InvoiceBuilder

  const ShowDueKey := "invoice-preview:showDueAmount"
  const ShowPaidKey := "invoice-preview:showPaidAmount"

  /** The text inputs of the details card, by the field they edit. */
  datatype TextField =
    | CompanyName | ClientName | ClientPhone | ClientEmail | ClientAddress
    | InvoiceNumber | InvoiceDate | DueDate | BankName | AccountName
    | AccountNumber | IfscCode | SignatoryName | SignatoryRole

  /** The two amount inputs. */
  datatype NumberField = DueAmountField | PaidAmountField

  function TextOf(d: InvoiceData, f: TextField): string
  {
    match f
    case CompanyName => d.companyName
    case ClientName => d.clientName
    case ClientPhone => d.clientPhone
    case ClientEmail => d.clientEmail
    case ClientAddress => d.clientAddress
    case InvoiceNumber => d.invoiceNumber
    case InvoiceDate => d.invoiceDate
    case DueDate => d.dueDate
    case BankName => d.bankName
    case AccountName => d.accountName
    case AccountNumber => d.accountNumber
    case IfscCode => d.ifscCode
    case SignatoryName => d.signatoryName
    case SignatoryRole => d.signatoryRole
  }

  /** `{ [field]: value }` for a text field. */
  function TextPatch(f: TextField, value: string): (r: DataPatch)
    ensures r.layers.None? && r.grandTotal.None? && r.dueAmount.None? && r.paidAmount.None?
    ensures r.showDueAmount.None? && r.showPaidAmount.None?
    ensures forall d :: TextOf(MergeData(d, r), f) == value
  {
    match f
    case CompanyName => EmptyDataPatch.(companyName := Some(value))
    case ClientName => EmptyDataPatch.(clientName := Some(value))
    case ClientPhone => EmptyDataPatch.(clientPhone := Some(value))
    case ClientEmail => EmptyDataPatch.(clientEmail := Some(value))
    case ClientAddress => EmptyDataPatch.(clientAddress := Some(value))
    case InvoiceNumber => EmptyDataPatch.(invoiceNumber := Some(value))
    case InvoiceDate => EmptyDataPatch.(invoiceDate := Some(value))
    case DueDate => EmptyDataPatch.(dueDate := Some(value))
    case BankName => EmptyDataPatch.(bankName := Some(value))
    case AccountName => EmptyDataPatch.(accountName := Some(value))
    case AccountNumber => EmptyDataPatch.(accountNumber := Some(value))
    case IfscCode => EmptyDataPatch.(ifscCode := Some(value))
    case SignatoryName => EmptyDataPatch.(signatoryName := Some(value))
    case SignatoryRole => EmptyDataPatch.(signatoryRole := Some(value))
  }

  /** The document with one text field replaced: the reference for `TextPatch`. */
  function SetText(d: InvoiceData, f: TextField, value: string): (r: InvoiceData)
    ensures forall g :: TextOf(r, g) == if g == f then value else TextOf(d, g)
  {
    match f
    case CompanyName => d.(companyName := value)
    case ClientName => d.(clientName := value)
    case ClientPhone => d.(clientPhone := value)
    case ClientEmail => d.(clientEmail := value)
    case ClientAddress => d.(clientAddress := value)
    case InvoiceNumber => d.(invoiceNumber := value)
    case InvoiceDate => d.(invoiceDate := value)
    case DueDate => d.(dueDate := value)
    case BankName => d.(bankName := value)
    case AccountName => d.(accountName := value)
    case AccountNumber => d.(accountNumber := value)
    case IfscCode => d.(ifscCode := value)
    case SignatoryName => d.(signatoryName := value)
    case SignatoryRole => d.(signatoryRole := value)
  }

  /** `handleInputChange` touches the named field and no other. */
  lemma TextPatchSetsOnlyItsField(d: InvoiceData, f: TextField, value: string)
    ensures MergeData(d, TextPatch(f, value)) == SetText(d, f, value)
    ensures forall g :: TextOf(MergeData(d, TextPatch(f, value)), g) == if g == f then value else TextOf(d, g)
    ensures Consistent(d) ==> Consistent(MergeData(d, TextPatch(f, value)))
  {
  }

  /** The characters `/[^0-9.-]/g` does not remove. */
  predicate IsNumberChar(c: char)
  {
    ('0' <= c <= '9') || c == '.' || c == '-'
  }

  /** `value.replace(/[^0-9.-]/g, "")` */
  function Sanitize(s: string): (r: string)
    ensures forall c :: c in r ==> IsNumberChar(c)
    ensures forall c :: c in s && IsNumberChar(c) ==> c in r
    ensures forall c :: multiset(r)[c] == if IsNumberChar(c) then multiset(s)[c] else 0
    ensures IsSubsequence(r, s)
    ensures |r| <= |s|
  {
    FilterIsSubsequence(s, IsNumberChar);
    FilterCount(s, IsNumberChar);
    Filter(s, IsNumberChar)
  }

  lemma SanitizeIdempotent(s: string)
    ensures Sanitize(Sanitize(s)) == Sanitize(s)
  {
    FilterIdempotent(s, IsNumberChar);
  }

  /** Input made only of kept characters is not changed. */
  lemma SanitizeKeepsNumberText(s: string)
    requires forall c :: c in s ==> IsNumberChar(c)
    ensures Sanitize(s) == s
  {
    FilterKeepsAll(s, IsNumberChar);
  }

  /** `isNaN(num) ? 0 : num` with `num = Number(sanitised)`. `Number` is the
      parameter `parse`, whose `None` stands for NaN. */
  function CoerceNumber(raw: string, parse: string -> Option<real>): (r: real)
    ensures parse(Sanitize(raw)).None? ==> r == 0.0
    ensures parse(Sanitize(raw)).Some? ==> r == parse(Sanitize(raw)).value
  {
    match parse(Sanitize(raw))
    case None => 0.0
    case Some(n) => n
  }

  /** `handleNumberChange`: `{ [field]: coerced }` for an amount field. */
  function NumberPatch(f: NumberField, raw: string, parse: string -> Option<real>): (r: DataPatch)
    ensures r.layers.None? && r.grandTotal.None?
    ensures f == DueAmountField ==> r.dueAmount == Some(CoerceNumber(raw, parse)) && r.paidAmount.None?
    ensures f == PaidAmountField ==> r.paidAmount == Some(CoerceNumber(raw, parse)) && r.dueAmount.None?
  {
    match f
    case DueAmountField => EmptyDataPatch.(dueAmount := Some(CoerceNumber(raw, parse)))
    case PaidAmountField => EmptyDataPatch.(paidAmount := Some(CoerceNumber(raw, parse)))
  }

  /** The number patch sets only its own amount, to the coerced value. */
  lemma NumberPatchSetsOnlyItsField(d: InvoiceData, f: NumberField, raw: string, parse: string -> Option<real>)
    ensures f == DueAmountField ==>
              MergeData(d, NumberPatch(f, raw, parse)) == d.(dueAmount := CoerceNumber(raw, parse))
    ensures f == PaidAmountField ==>
              MergeData(d, NumberPatch(f, raw, parse)) == d.(paidAmount := CoerceNumber(raw, parse))
    ensures Consistent(d) ==> Consistent(MergeData(d, NumberPatch(f, raw, parse)))
  {
  }

  /** The stored preference: `"1"` is true, any other stored text false;
      a missing value or a throwing store falls back to the document flag, else true. */
  function DecodePreference(read: Read, flag: Option<bool>): (r: bool)
    ensures read == Got(Some("1")) ==> r
    ensures read.Got? && read.value.Some? && read.value.value != "1" ==> !r
    ensures read.Threw? || read == Got(None) ==> r == flag.GetOr(true)
  {
    match read
    case Threw => flag.GetOr(true)
    case Got(None) => flag.GetOr(true)
    case Got(Some(stored)) => stored == "1"
  }

  function EncodePreference(b: bool): (r: string)
    ensures (r == "1") == b && (r == "0") == !b
  {
    if b then "1" else "0"
  }

  lemma DecodeEncode(b: bool, flag: Option<bool>)
    ensures DecodePreference(Got(Some(EncodePreference(b))), flag) == b
  {
  }

  function ShowDuePatch(b: bool): (r: DataPatch)
    ensures r.showDueAmount == Some(b) && r.showPaidAmount.None?
    ensures r.layers.None? && r.grandTotal.None?
  {
    EmptyDataPatch.(showDueAmount := Some(b))
  }

  function ShowPaidPatch(b: bool): (r: DataPatch)
    ensures r.showPaidAmount == Some(b) && r.showDueAmount.None?
    ensures r.layers.None? && r.grandTotal.None?
  {
    EmptyDataPatch.(showPaidAmount := Some(b))
  }

  /** Each toggle's patch sets only its own flag. */
  lemma TogglePatchesSetOnlyTheirField(d: InvoiceData, b: bool)
    ensures MergeData(d, ShowDuePatch(b)) == d.(showDueAmount := b)
    ensures MergeData(d, ShowPaidPatch(b)) == d.(showPaidAmount := b)
  {
  }

  /** The two `useState` toggles of the editor. */
  class PreviewToggles {
    var showDueInPreview: bool
    var showPaidInPreview: bool

    /** The document's two flags agree with the switches. */
    predicate Synced(builder: Builder)
      reads this, builder
    {
      builder.data.showDueAmount == showDueInPreview && builder.data.showPaidAmount == showPaidInPreview
    }

    /** Mounting the editor: the lazy initialisers read the store, falling back
        to the document's flags; then both effects run once after the first render,
        patching the document and writing the switches back. */
    constructor(builder: Builder, store: Store)
      modifies builder, store
      ensures showDueInPreview == DecodePreference(old(store.ReadOf(ShowDueKey)), Some(old(builder.data.showDueAmount)))
      ensures showPaidInPreview == DecodePreference(old(store.ReadOf(ShowPaidKey)), Some(old(builder.data.showPaidAmount)))
      ensures builder.data == old(builder.data).(showDueAmount := showDueInPreview, showPaidAmount := showPaidInPreview)
      ensures Synced(builder)
      ensures store.available == old(store.available)
      ensures store.entries == if store.available
                               then old(store.entries)[ShowDueKey := EncodePreference(showDueInPreview)]
                                                      [ShowPaidKey := EncodePreference(showPaidInPreview)]
                               else old(store.entries)
      ensures Consistent(old(builder.data)) ==> Consistent(builder.data)
    {
      var due := store.GetItem(ShowDueKey);
      var paid := store.GetItem(ShowPaidKey);
      showDueInPreview := DecodePreference(due, Some(builder.data.showDueAmount));
      showPaidInPreview := DecodePreference(paid, Some(builder.data.showPaidAmount));
      new;
      SyncShowDue(builder, store);
      SyncShowPaid(builder, store);
    }

    /** The effect on `showDueInPreview`: patch the document, then persist. */
    method SyncShowDue(builder: Builder, store: Store)
      modifies builder, store
      ensures builder.data == old(builder.data).(showDueAmount := showDueInPreview)
      ensures store.available == old(store.available)
      ensures store.entries == if store.available
                               then old(store.entries)[ShowDueKey := EncodePreference(showDueInPreview)]
                               else old(store.entries)
      ensures store.available ==> DecodePreference(store.ReadOf(ShowDueKey), None) == showDueInPreview
      ensures Consistent(old(builder.data)) ==> Consistent(builder.data)
    {
      builder.UpdateInvoiceData(ShowDuePatch(showDueInPreview));
      var threw := store.SetItem(ShowDueKey, EncodePreference(showDueInPreview));
    }

    /** The effect on `showPaidInPreview`. */
    method SyncShowPaid(builder: Builder, store: Store)
      modifies builder, store
      ensures builder.data == old(builder.data).(showPaidAmount := showPaidInPreview)
      ensures store.available == old(store.available)
      ensures store.entries == if store.available
                               then old(store.entries)[ShowPaidKey := EncodePreference(showPaidInPreview)]
                               else old(store.entries)
      ensures store.available ==> DecodePreference(store.ReadOf(ShowPaidKey), None) == showPaidInPreview
      ensures Consistent(old(builder.data)) ==> Consistent(builder.data)
    {
      builder.UpdateInvoiceData(ShowPaidPatch(showPaidInPreview));
      var threw := store.SetItem(ShowPaidKey, EncodePreference(showPaidInPreview));
    }

    /** The due switch: `setShowDueInPreview(b)` and the effect it triggers. */
    method SetShowDue(b: bool, builder: Builder, store: Store)
      modifies this, builder, store
      ensures showDueInPreview == b && showPaidInPreview == old(showPaidInPreview)
      ensures builder.data == old(builder.data).(showDueAmount := b)
      ensures old(Synced(builder)) ==> Synced(builder)
      ensures store.available == old(store.available)
      ensures store.entries == if store.available
                               then old(store.entries)[ShowDueKey := EncodePreference(b)]
                               else old(store.entries)
      ensures store.available ==> DecodePreference(store.ReadOf(ShowDueKey), None) == b
    {
      showDueInPreview := b;
      SyncShowDue(builder, store);
    }

    /** The paid switch. */
    method SetShowPaid(b: bool, builder: Builder, store: Store)
      modifies this, builder, store
      ensures showPaidInPreview == b && showDueInPreview == old(showDueInPreview)
      ensures builder.data == old(builder.data).(showPaidAmount := b)
      ensures old(Synced(builder)) ==> Synced(builder)
      ensures store.available == old(store.available)
      ensures store.entries == if store.available
                               then old(store.entries)[ShowPaidKey := EncodePreference(b)]
                               else old(store.entries)
      ensures store.available ==> DecodePreference(store.ReadOf(ShowPaidKey), None) == b
    {
      showPaidInPreview := b;
      SyncShowPaid(builder, store);
    }
  }
}
