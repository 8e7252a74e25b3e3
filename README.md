# Local-Invoice: the recalculation rule, preview layout, input coercion, escaping and login gate

This project models the sequential logic of a browser invoice editor and proves properties of it.
An invoice holds layers. A layer holds line items.

- Every item's `amount` is `qty * rate`.
- Every layer's `subtotal` is the sum of its item amounts.
- The document's `grandTotal` is the sum of the layer subtotals.

The model holds each of these operations to that rule:

- The item operations of one layer's editor: `addItem`, `updateItem`, `deleteItem`, `calculateSubtotal`.
  They emit a `{ items, subtotal }` patch.
- The document operations of the builder page: `updateInvoiceData`, `addLayer`, `updateLayer`, `deleteLayer`, `calculateGrandTotal`.
  They run over a `Builder` object whose `data` field is the page state.

Beside the totals, the project models:

- how the preview lays out its item table: running row numbers, padding to five rows, alternating shading;
- when the footer shows its due line, its paid line and the signature;
- the editor's one-field patches and its number sanitiser with the NaN-to-0 fallback;
- the `"1"`/`"0"` encoding of the two "show in preview" switches persisted in `localStorage`;
- the HTML escaping of the print title and the `??` defaults of the print options;
- the login gate: a credential check and an e-mail check over a key-value store.

Modules, one per source file:

- `Wrappers`: `Option`.
- `Seqs`: filter, subsequence and left-fold sum, with their lemmas.
- `InvoiceTypes` (`src/types/invoice.ts`): the records, their `Partial<...>` patches and the shallow merges `{ ...x, ...patch }`.
- `LayerEditor` (`src/components/invoice/LayerEditor.tsx`): the item operations, as pure functions producing the layer patch.
- `InvoiceBuilder` (`src/components/InvoiceBuilder.tsx`): the grand total, the initial document, the layer operations as functions, and the class `Builder` whose methods replace `data`.
- `InvoicePreview` (`src/components/invoice/InvoicePreview.tsx`): table rows and footer.
- `KeyValueStore`: `localStorage` as a class with an `entries` map and an `available` flag. When the flag is false, every call throws.
- `InvoiceEditor` (`src/components/invoice/InvoiceEditor.tsx`): patches, sanitiser, preference codec, and the class `PreviewToggles` for the two switches and their effects.
- `Print` (`src/lib/print.ts`): `escapeHtml` and the option defaults.
- `Auth` (`src/lib/auth.ts`): the login gate.

Inputs from the environment are parameters:

- Ids come from `Date.now()`. They are a `freshId` parameter.
- The two dates of the initial document come from the clock. They are parameters of `InitialData` and of the `Builder` constructor.
- `Number()` is a parameter `parse: string -> Option<real>`. `None` stands for NaN.
- `document.title` is a parameter.
- The build-time environment settings are `Option` parameters of `ConfigFromEnv`.

Numbers are `real`.

Where the record type and the code disagree, the model follows the code:

- `InvoiceData` declares `notes: string` as required, but `initialData` leaves it out, so at run time it is absent. The model types `notes` as `Option<string>`, and the initial document has `None`.
- The preview's notes paragraph is fixed text. It does not read `notes`.

## Model

| member | source | states |
|---|---|---|
| `InvoiceTypes.MergeItem` | src/components/invoice/LayerEditor.tsx:34 | `{ ...item, ...updates }`: the empty patch gives the item back |
| `InvoiceTypes.MergeLayer` | src/components/InvoiceBuilder.tsx:110 | `{ ...layer, ...updates }`; the empty patch gives the layer back |
| `InvoiceTypes.MergeData` | src/components/InvoiceBuilder.tsx:86-88 | `{ ...prev, ...newData }`; the empty patch gives the document back |
| `InvoiceTypes.MergeDataTwice` | src/components/InvoiceBuilder.tsx:86-88 | two successive `updateInvoiceData` merges equal one merge of the combined patch, later fields winning |
| `LayerEditor.Subtotal` | src/components/invoice/LayerEditor.tsx:51-53 | the reduce from 0 over no items is 0 |
| `LayerEditor.SubtotalNonNegative` | src/components/invoice/LayerEditor.tsx:51-53 | items with no negative amount give no negative subtotal |
| `LayerEditor.NewItem` | src/components/invoice/LayerEditor.tsx:18-24 | the new item carries the fresh id, an empty description, quantity 1, rate 0 and amount 0 |
| `LayerEditor.SubtotalAppend` | src/components/invoice/LayerEditor.tsx:51-53 | the subtotal of a concatenation is the sum of the two subtotals |
| `LayerEditor.ItemsPatch` | src/components/invoice/LayerEditor.tsx:26-28 | the emitted patch `{ items, subtotal }` carries only those two fields, with subtotal = sum of the emitted amounts |
| `LayerEditor.AddItem` | src/components/invoice/LayerEditor.tsx:17-29 | appends exactly one item `{id: fresh, "", qty 1, rate 0, amount 0}` after the existing items; the subtotal equals the old items' subtotal (and the layer's own subtotal when the layer was consistent); the patch keeps totals consistent |
| `LayerEditor.RecalculatedItem` | src/components/invoice/LayerEditor.tsx:34-36 | the merged item with `amount` recomputed as `qty * rate`; every other field is the merge's |
| `LayerEditor.UpdateItem` | src/components/invoice/LayerEditor.tsx:31-43 | list length kept; every item with the matching id is merged and gets `amount = qty * rate` even if the patch supplied an amount; every other item is identical; subtotal = sum of the new amounts; a consistent layer yields a total-keeping patch |
| `LayerEditor.DeleteItem` | src/components/invoice/LayerEditor.tsx:45-49 | an item is kept iff it was present and its id differs; the result is an order-preserving subsequence; deleting when every item matches (e.g. the last one) gives no items and subtotal 0; a consistent layer yields a total-keeping patch |
| `LayerEditor.DeleteItemSubtotal` | src/components/invoice/LayerEditor.tsx:46-48 | the new subtotal is the old one minus exactly the amounts of the removed items |
| `LayerEditor.DeleteItemIdempotent` | src/components/invoice/LayerEditor.tsx:46 | deleting the same id twice gives the same patch as once |
| `LayerEditor.UpdateWithEmptyPatchKeepsConsistentLayer` | src/components/invoice/LayerEditor.tsx:31-43 | recomputing a consistent layer with an empty patch reproduces its items and subtotal (no drift) |
| `LayerEditor.MergeKeepsLayerConsistent` | src/components/InvoiceBuilder.tsx:109-111 | merging a total-keeping patch into a consistent layer leaves it consistent |
| `LayerEditor.LayerScenario` | src/components/invoice/LayerEditor.tsx:17-53 | from one item 1 x 5000: add an item and set it to qty 2, rate 1500, giving amount 3000 and subtotal 8000; deleting the first item leaves that item alone, with subtotal 3000 |
| `InvoiceBuilder.GrandTotal` | src/components/InvoiceBuilder.tsx:129-131 | the reduce from 0 over no layers is 0 |
| `InvoiceBuilder.GrandTotalNonNegative` | src/components/InvoiceBuilder.tsx:129-131 | layers with no negative subtotal give no negative grand total |
| `InvoiceBuilder.NewLayer` | src/components/InvoiceBuilder.tsx:91-98 | the new layer carries the fresh id, the title `"New Layer"`, no items and subtotal 0, and is consistent |
| `InvoiceBuilder.InitialData` | src/components/InvoiceBuilder.tsx:6-81 | the initial document is consistent at all levels: one layer, one item of amount 5000, subtotal 5000, grand total 5000, dates as given |
| `InvoiceBuilder.WithLayers` | src/components/InvoiceBuilder.tsx:101-105 | the new state has the new layers and their grand total, and every other field of the old state |
| `InvoiceBuilder.AddLayerTo` | src/components/InvoiceBuilder.tsx:90-106 | appends one layer `"New Layer"` with no items and subtotal 0; the grand total is the sum of the new layers' subtotals and equals the old one; only `layers` and `grandTotal` change; consistency preserved |
| `InvoiceBuilder.UpdateLayerIn` | src/components/InvoiceBuilder.tsx:108-118 | list length kept; the patch is merged into exactly the layers whose id matches, the others are identical; grand total = sum of subtotals; only `layers` and `grandTotal` change; a consistent document and a total-keeping patch give a consistent document |
| `InvoiceBuilder.UpdatedLayersConsistent` | src/components/InvoiceBuilder.tsx:109-111 | mapping a total-keeping merge over consistent layers gives consistent layers |
| `InvoiceBuilder.DeleteLayerFrom` | src/components/InvoiceBuilder.tsx:120-127 | the layers are exactly those with a different id, in the old order and with their multiplicity (a layer with another id occurs as often as before, one with the id not at all); the grand total is the sum of the kept subtotals; deleting every layer gives no layers and grand total 0; only `layers` and `grandTotal` change; consistency preserved |
| `InvoiceBuilder.ItemEditsKeepDocumentConsistent` | src/components/invoice/LayerEditor.tsx:17-53 | an add, update or delete of items, handed to `updateLayer` under its layer's id, keeps amount, subtotal and grand total all consistent |
| `InvoiceBuilder.AddItemKeepsGrandTotal` | src/components/invoice/LayerEditor.tsx:17-29 | adding an item to a layer with a unique id leaves the grand total unchanged |
| `InvoiceBuilder.SingleLayerUpdate` | src/components/InvoiceBuilder.tsx:108-118 | on a one-layer document, updating it makes the grand total that layer's new subtotal |
| `InvoiceBuilder.DocumentScenario` | src/components/InvoiceBuilder.tsx:108-131 | on any one-layer document whose layer holds one item 1 x 5000: grand total 5000, then 8000 after adding a 2 x 1500 item, then 3000 after deleting the first item |
| `InvoiceBuilder.RecalculationScenario` | src/components/InvoiceBuilder.tsx:63-131 | on the initial document: grand total 5000, then 8000 after adding a 2 x 1500 item, then 3000 after deleting the first item |
| `InvoiceBuilder.Builder.constructor` | src/components/InvoiceBuilder.tsx:84 | the state starts as the initial document, which is consistent |
| `InvoiceBuilder.Builder.UpdateInvoiceData` | src/components/InvoiceBuilder.tsx:86-88 | the state becomes the shallow merge; a patch without `layers` or `grandTotal` keeps consistency |
| `InvoiceBuilder.Builder.AddLayer` | src/components/InvoiceBuilder.tsx:90-106 | the state becomes `AddLayerTo` of the old one; grand total = sum of subtotals; consistency and the grand total are kept |
| `InvoiceBuilder.Builder.UpdateLayer` | src/components/InvoiceBuilder.tsx:108-118 | the state becomes `UpdateLayerIn` of the old one; grand total = sum of subtotals; consistency kept for total-keeping patches |
| `InvoiceBuilder.Builder.DeleteLayer` | src/components/InvoiceBuilder.tsx:120-127 | the state becomes `DeleteLayerFrom` of the old one; grand total = sum of subtotals; consistency kept |
| `InvoicePreview.ItemCountIsFlatLength` | src/components/invoice/InvoicePreview.tsx:143-145 | the reduce over item counts equals the length of the flattened item list |
| `InvoicePreview.AllItems` | src/components/invoice/InvoicePreview.tsx:141-148 | one entry per item of all layers, and entry k has row index k |
| `InvoicePreview.AllItemsPositions` | src/components/invoice/InvoicePreview.tsx:141-148 | the row index of each entry, computed as (items in earlier layers) + item index, is exactly its position in the flattened list, and the entry carries the item at that position |
| `InvoicePreview.TableRows` | src/components/invoice/InvoicePreview.tsx:150-190 | `max(n, 5)` rows; row k is numbered k + 1 and shaded white when k is even, green when odd, across item and padding rows; rows below n are the flattened items in order, the rest are padding |
| `InvoicePreview.EmptyRowCount` | src/components/invoice/InvoicePreview.tsx:151-153 | the padding count is `max(n, 5) - n`; with 5 or more items no padding row appears |
| `InvoicePreview.FooterOf` | src/components/invoice/InvoicePreview.tsx:232-270 | the due and paid lines appear iff their flags are set and show those amounts; the signature image appears iff `signatureImage` is non-empty, else the placeholder |
| `InvoiceEditor.SetText` | src/components/invoice/InvoiceEditor.tsx:84-99 | replacing one text field changes that field only, as seen through every text field |
| `InvoiceEditor.TextPatch` | src/components/invoice/InvoiceEditor.tsx:64-66 | the patch sets the named field to the value in any document, and carries no layers, totals, amounts or switch flags |
| `InvoiceEditor.TextPatchSetsOnlyItsField` | src/components/invoice/InvoiceEditor.tsx:64-66 | `handleInputChange` patches exactly the named field and keeps the document consistent |
| `InvoiceEditor.Sanitize` | src/components/invoice/InvoiceEditor.tsx:69 | the output contains only `0-9 . -`; each such character occurs in it exactly as often as in the input, and no other character occurs; it is a subsequence of the input |
| `InvoiceEditor.SanitizeIdempotent` | src/components/invoice/InvoiceEditor.tsx:69 | sanitising twice equals sanitising once |
| `InvoiceEditor.SanitizeKeepsNumberText` | src/components/invoice/InvoiceEditor.tsx:69 | text made only of kept characters is unchanged |
| `InvoiceEditor.CoerceNumber` | src/components/invoice/InvoiceEditor.tsx:69-70 | the value is the parse of the sanitised text, or 0 when it does not parse: never NaN |
| `InvoiceEditor.NumberPatch` | src/components/invoice/InvoiceEditor.tsx:68-71 | the patch sets the named amount to the coerced value, leaves the other amount, and carries no layers or grand total |
| `InvoiceEditor.NumberPatchSetsOnlyItsField` | src/components/invoice/InvoiceEditor.tsx:68-71 | `handleNumberChange` sets only its amount field, to the coerced value, and keeps consistency |
| `InvoiceEditor.DecodePreference` | src/components/invoice/InvoiceEditor.tsx:32-48 | stored `"1"` gives true, any other stored text false; a missing value or a throwing store gives the document flag, else true |
| `InvoiceEditor.EncodePreference` | src/components/invoice/InvoiceEditor.tsx:53 | writes `"1"` exactly for true and `"0"` exactly for false |
| `InvoiceEditor.DecodeEncode` | src/components/invoice/InvoiceEditor.tsx:35-60 | decoding an encoded preference gives it back |
| `InvoiceEditor.ShowDuePatch` | src/components/invoice/InvoiceEditor.tsx:51 | the patch sets `showDueAmount` to the switch value and carries no other flag, layers or grand total |
| `InvoiceEditor.ShowPaidPatch` | src/components/invoice/InvoiceEditor.tsx:58 | the patch sets `showPaidAmount` to the switch value and carries no other flag, layers or grand total |
| `InvoiceEditor.TogglePatchesSetOnlyTheirField` | src/components/invoice/InvoiceEditor.tsx:51-58 | each switch's patch sets only `showDueAmount` or only `showPaidAmount` |
| `InvoiceEditor.PreviewToggles.constructor` | src/components/invoice/InvoiceEditor.tsx:32-62 | mounting: both switches start as the decoded stored preference, falling back to the document's flags; then both effects run once, so the document's two flags equal the switches, nothing else in the document changes, both encoded values are written back when storage works, and consistency is kept |
| `InvoiceEditor.PreviewToggles.SyncShowDue` | src/components/invoice/InvoiceEditor.tsx:50-55 | the effect sets `showDueAmount` in the document and nothing else, writes the encoded value under its key when storage works, and the stored value decodes back to the switch |
| `InvoiceEditor.PreviewToggles.SyncShowPaid` | src/components/invoice/InvoiceEditor.tsx:57-62 | the same for `showPaidAmount` |
| `InvoiceEditor.PreviewToggles.SetShowDue` | src/components/invoice/InvoiceEditor.tsx:134 | the due switch sets its state, leaves the other switch, patches the document, keeps storage availability and persists the value when storage works; document and switches stay in agreement |
| `InvoiceEditor.PreviewToggles.SetShowPaid` | src/components/invoice/InvoiceEditor.tsx:153 | the same for the paid switch |
| `Print.ReplaceAll` | src/lib/print.ts:123 | a global one-character replacement leaves a string without that character unchanged |
| `Print.ReplaceAllLonger` | src/lib/print.ts:123 | a replacement by a non-empty string never shortens the string |
| `Print.EscapeHtml` | src/lib/print.ts:121-128 | a string with none of the five special characters is returned unchanged, and the output is never shorter than the input |
| `Print.EscapeHtmlIsEscapeEach` | src/lib/print.ts:121-128 | the five sequential replace-all passes equal one per-character substitution |
| `Print.EscapedHasNoMarkup` | src/lib/print.ts:121-128 | the output contains none of `<`, `>`, `"`, `'` |
| `Print.AmpersandsBeginEntities` | src/lib/print.ts:123-127 | every `&` of the output begins `&amp;`, `&lt;`, `&gt;`, `&quot;` or `&#039;` |
| `Print.UnescapeEscapeHtml` | src/lib/print.ts:121-128 | decoding the five entities recovers the input |
| `Print.EscapeHtmlInjective` | src/lib/print.ts:121-128 | distinct inputs escape to distinct outputs |
| `Print.ResolvedTitle` | src/lib/print.ts:8 | the title is `opts.title` when present (an empty title is kept), else `document.title` when present, else `"Document"` |
| `Print.ResolvedPadding` | src/lib/print.ts:9 | the padding is `opts.pagePaddingMM` when present (0 is kept), else 20 |
| `Print.TitleMarkup` | src/lib/print.ts:42 | the `<title>` text decodes back to the resolved title and holds no `<` or `>` |
| `KeyValueStore.Store.GetItem` | src/lib/auth.ts:10 | throws iff storage is unavailable; otherwise returns the stored value, or null when the key is absent |
| `KeyValueStore.Store.SetItem` | src/lib/auth.ts:27 | throws iff unavailable; otherwise binds the key to the value and touches nothing else |
| `KeyValueStore.Store.RemoveItem` | src/lib/auth.ts:48 | throws iff unavailable; otherwise removes the key and touches nothing else |
| `Auth.ConfigFromEnv` | src/lib/auth.ts:1-3 | each setting is the environment value when defined, else the built-in default |
| `Auth.ToLower` | src/lib/auth.ts:36 | lower-casing keeps the length and maps each character through ASCII lower-casing |
| `Auth.ToLowerIdempotent` | src/lib/auth.ts:36 | lower-casing twice equals lower-casing once |
| `Auth.EmailAccepted` | src/lib/auth.ts:36 | accepted iff the e-mail is non-empty, as long as the allowed one, and equal to it character by character after lower-casing |
| `Auth.EmailAcceptedIgnoresCase` | src/lib/auth.ts:36 | two e-mails equal up to case are accepted alike |
| `Auth.IsAuthenticated` | src/lib/auth.ts:8-14 | true iff storage works and the flag is stored as exactly `"true"`; false when storage throws |
| `Auth.GetAuthUser` | src/lib/auth.ts:16-22 | the stored user, or null when absent or when storage throws |
| `Auth.LoginWithCredentials` | src/lib/auth.ts:24-33 | returns true iff username and password equal the configured ones, even when storage throws; on success with working storage the flag is `"true"`, the user is the username, so the gate is open; on failure nothing changes; keys other than the two auth keys never change |
| `Auth.LoginWithGoogleEmail` | src/lib/auth.ts:35-44 | returns true iff the e-mail is non-empty and equal to the allowed one up to case; on success stores the e-mail as given; on failure nothing changes; other keys never change |
| `Auth.Logout` | src/lib/auth.ts:46-51 | removes both auth keys when storage works; afterwards the gate is closed and no user is reported; other keys never change |

## Left out

- The body of `printElement` (src/lib/print.ts:11-91) and `waitForIframeStylesAndAssets` (src/lib/print.ts:93-119) are left out. They build an iframe, write and clone DOM, add event listeners, wait on promises and clean up with a timer, all of which is browser I/O and asynchronous timing. Only the title that goes into the iframe's `<title>` (`Print.TitleMarkup`) and the option defaults are modelled.
- `handlePrint` (src/components/invoice/InvoicePreview.tsx:11-43) is left out: font readiness, image load events and `window.print`.
- JSX rendering, CSS and the print stylesheet are left out. The preview is modelled as table rows and footer values.
- Locale formatting of numbers and dates is left out, because it is a foreign library.
- JavaScript numbers are modelled as unbounded reals, so NaN, infinities and float rounding of `qty * rate` and of the sums are not modelled. `Number()` in the item table (src/components/invoice/ItemsTable.tsx:50, 59) can produce NaN, which the model cannot express.
- The grammar of `Number()` is not modelled. It is an arbitrary parse function, and its `None` is NaN.
- `addLayer` and `updateLayer` build the new list from the render's `invoiceData` rather than from `prev` (src/components/InvoiceBuilder.tsx:100, 109). This stale-closure effect of asynchronous rendering is not modelled. Each operation is a function of the current state.
- `InvoiceEditor.PreviewToggles.SetShowDue`, `InvoiceEditor.PreviewToggles.SetShowPaid`: React runs each effect after the first render (modelled by the constructor) and afterwards only when its switch value changes, while the model runs it on every call of the setter. A call with an unchanged value differs only where something else has since changed that document flag or that stored entry: the model then writes the switch value again and the source does not.
- `KeyValueStore.Store.SetItem`: storage either works for every call or throws on every call. A store whose first write succeeds and whose second fails (a full quota) is not modelled.
- `Auth.ToLower`: lower-cases ASCII letters only, not full Unicode `toLowerCase`.
- The signature image upload through `FileReader` (src/components/invoice/InvoiceEditor.tsx:73-82) is left out, because it is browser I/O. It only ever patches `signatureImage`.
- The login pages, navigation, `window.prompt`, the light-ray visuals, the item table UI and the route guard (src/components/ProtectedRoute.tsx) are left out. They are UI plumbing. The guard only calls `isAuthenticated`, which is modelled.
- `handleNumberChange` takes any key of the document in the source. Only the two amount fields it is called with are modelled. Likewise `handleInputChange` is modelled for the fourteen text fields of the details card.
