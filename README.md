# GST bill maker: invoice logic

This project models the invoice logic inside the offline GST bill maker, a
single-page React app that Indian small businesses use to write invoices. The
model is in Dafny and its properties are proved there. It covers:

- the **totals calculator**: subtotal, taxable base, the revenue-weighted
  blended GST rate, total GST, the CGST/SGST (intra-state) or IGST
  (inter-state) split, and the grand total;
- the **field update** behind every profile, client, invoice, amount and
  license-key input. It assigns one leaf of the state. When a state or the place of supply changes, it re-derives the
  `interState` flag and the place of supply;
- the **line-item operations**: add a blank item, remove items by id, and
  edit one field of the item(s) with an id;
- the **offline Pro unlock**. A license key is accepted when it matches
  `^NSQ-(?:2025|2026)-[A-Z0-9]{6}$`.

Files:

- `invoice_data.dfy` (module `InvoiceData`) holds the state records.
  - Numeric fields are `Field = Missing | Num(real) | NaN`.
  - `Norm` is the app's `Number(x || 0)` coercion, made explicit at the
    calculator's boundary.
  - Typed getters and setters stand in for the dotted paths.
  - `DefaultData` is the state the app starts from.
- `tax.dfy` (module `Tax`) is the calculator. Each `reduce` is a left fold
  written as a recursion that peels off the last item.
- `line_items.dfy` (module `LineItems`) holds the item-list operations.
- `state_update.dfy` (module `StateUpdate`) holds `update`. It is an
  imperative method on a local clone of the previous state. It assigns the
  leaf, then overwrites `interState` and `placeOfSupply`.
- `license.dfy` (module `License`) holds the unlock check.
  - A small regular-expression language gives the pattern its meaning.
  - `IsLicenseKey` spells the format out position by position.
  - `PatternMatchesIff` proves that the two agree on every string.

Amounts are exact `real`s, so the identities below hold exactly. In the app
they hold only up to floating-point rounding.

Two behaviours of the code are easy to miss:

- **Picking a place of supply by hand never takes effect.** The same
  update re-derives the place from the two states: the client's state, or
  the business's state when the client has none. The pick also resets the
  `interState` flag to the comparison of the two states, undoing a switch
  set by hand (`PickPlaceOfSupply`).
- **The `interState` switch is a plain assignment.** It can make the flag
  disagree with the two states. It is the only update that can do so
  (`Update`, last postcondition).

## Model

| member | source | states |
|---|---|---|
| `InvoiceData.WithText` | gst_bill_maker_offline_pwa_ready_react_app.jsx:108-111 | assigning a text leaf sets exactly that leaf; every other text leaf, both amounts, the flag, the items and the unlock flag are unchanged |
| `InvoiceData.WithAmount` | gst_bill_maker_offline_pwa_ready_react_app.jsx:108-111 | assigning the discount or shipping sets exactly that amount and nothing else |
| `InvoiceData.SameLeavesSameData` | gst_bill_maker_offline_pwa_ready_react_app.jsx:32-65 | two states that agree on every addressable leaf, the items and the unlock flag are equal, so the getters describe the whole state |
| `InvoiceData.DefaultData` | gst_bill_maker_offline_pwa_ready_react_app.jsx:32-65 | the default state has a flag that agrees with the two states, its place of supply is the client's state, and it starts locked with no key |
| `InvoiceData.Norm` | gst_bill_maker_offline_pwa_ready_react_app.jsx:82-85 | `Number(x || 0)`: a stored number reads as itself; an absent value or NaN reads as 0 |
| `Tax.Line` | gst_bill_maker_offline_pwa_ready_react_app.jsx:82 | the line amount is qty × price when both are stored numbers, and 0 when either is absent or NaN |
| `Tax.Rate` | gst_bill_maker_offline_pwa_ready_react_app.jsx:83 | the GST rate is the stored number, and 0 when it is absent or NaN |
| `Tax.Subtotal` | gst_bill_maker_offline_pwa_ready_react_app.jsx:82 | an invoice with no items has subtotal 0; with `SubtotalCons` this fixes the sum as Σ line |
| `Tax.LineGst` | gst_bill_maker_offline_pwa_ready_react_app.jsx:83 | an invoice with no items carries no tax; with `LineGstCons` this fixes the sum as Σ line × rate/100 |
| `Tax.LineGstCons` | gst_bill_maker_offline_pwa_ready_react_app.jsx:83 | the left-fold per-line tax also splits off the first item: the tax of `[x] + rest` is x's line × rate/100 plus the tax of `rest` |
| `Tax.LineTaxSign` | gst_bill_maker_offline_pwa_ready_react_app.jsx:83 | one line's tax `line × rate/100` is 0 at a 0 % rate and when qty, price or GST is absent or NaN, and it is non-negative when the line and the rate are |
| `Tax.WeightedSum` | gst_bill_maker_offline_pwa_ready_react_app.jsx:99-102 | the fold Σ (line/sub)·(rate/100) equals the per-line tax Σ line·rate/100 divided by sub, for every non-zero sub |
| `Tax.WeightedGst` | gst_bill_maker_offline_pwa_ready_react_app.jsx:96-103 | the blended rate is 0 when the subtotal is ≤ 0; otherwise the blended rate times the subtotal is the per-line tax |
| `Tax.Taxable` | gst_bill_maker_offline_pwa_ready_react_app.jsx:86 | the taxable base is never negative; it is `sub − discount` or 0; it is 0 exactly when the discount is at least the subtotal |
| `Tax.ComputeTotals` | gst_bill_maker_offline_pwa_ready_react_app.jsx:81-94 | total GST is the taxable base times the blended rate; cgst + sgst + igst = total GST; intra-state has cgst = sgst and igst = 0; inter-state has cgst = sgst = 0; grand = taxable + shipping + total GST; a discount ≥ subtotal gives no tax and grand = shipping |
| `Tax.UniformLineGst` | gst_bill_maker_offline_pwa_ready_react_app.jsx:82-83 | with one rate R on every item, the per-line tax is subtotal × R/100 |
| `Tax.UniformRate` | gst_bill_maker_offline_pwa_ready_react_app.jsx:87-103 | with one rate R and a positive subtotal, the blended rate is exactly R/100 and total GST is the taxable base × R/100 |
| `Tax.LineGstBounds` | gst_bill_maker_offline_pwa_ready_react_app.jsx:82-83 | with non-negative lines and rates in [lo, hi], the per-line tax lies between subtotal × lo/100 and subtotal × hi/100 |
| `Tax.WeightedGstIsAverage` | gst_bill_maker_offline_pwa_ready_react_app.jsx:96-103 | the blended rate is a weighted average: it lies between the lowest and the highest item rate |
| `Tax.NoDiscountTaxIsPerLineTax` | gst_bill_maker_offline_pwa_ready_react_app.jsx:83-87 | with no discount and non-negative lines, total GST equals the per-line tax sum (the unused `gstAmt`) |
| `Tax.ZeroSubtotalNoTax` | gst_bill_maker_offline_pwa_ready_react_app.jsx:82-83 | non-negative lines that add up to zero carry no tax |
| `Tax.SubtotalNonNegative` | gst_bill_maker_offline_pwa_ready_react_app.jsx:82 | non-negative lines give a non-negative subtotal |
| `Tax.JurisdictionKeepsGrandTotal` | gst_bill_maker_offline_pwa_ready_react_app.jsx:87-92 | flipping `interState` changes neither total GST nor the grand total |
| `Tax.SameAmountsSameSums` | gst_bill_maker_offline_pwa_ready_react_app.jsx:82-83 | item lists that agree position by position on line amounts and rates have the same subtotal and per-line tax |
| `Tax.SameAmountsSameTotals` | gst_bill_maker_offline_pwa_ready_react_app.jsx:81-94 | such item lists give identical totals |
| `Tax.DemoItemAmounts` | gst_bill_maker_offline_pwa_ready_react_app.jsx:28-30 | the demo item is one unit at 2500 with GST at 18 %: its line is 2500 and its rate 18 |
| `Tax.DemoIntraState` | gst_bill_maker_offline_pwa_ready_react_app.jsx:81-94 | the invoice the app starts with (the demo item, lines 29 and 59; intra-state, no discount, no shipping): subtotal 2500, GST 450, CGST = SGST = 225, IGST 0, grand 2950 |
| `Tax.DemoInterState` | gst_bill_maker_offline_pwa_ready_react_app.jsx:89-92 | that invoice with the switch set to inter-state: IGST 450, CGST = SGST = 0, grand 2950 |
| `Tax.DemoMixedRates` | gst_bill_maker_offline_pwa_ready_react_app.jsx:96-103 | items 1000 at 0 % and 1000 at 18 % blend to 0.09: GST 180, grand 2180 |
| `LineItems.BlankItem` | gst_bill_maker_offline_pwa_ready_react_app.jsx:123 | a new item has the given id, a line amount of 0 and the default rate of 18 % |
| `LineItems.AddItem` | gst_bill_maker_offline_pwa_ready_react_app.jsx:122-124 | exactly one item is appended, with the given id, empty name and HSN, and the stored numbers qty 1, price 0 and GST 18; the earlier items are unchanged |
| `LineItems.AddItemKeepsTotals` | gst_bill_maker_offline_pwa_ready_react_app.jsx:122-124 | adding a blank item leaves every total unchanged |
| `LineItems.RemoveItem` | gst_bill_maker_offline_pwa_ready_react_app.jsx:126-128 | the result holds only items of the input, none with the id, and every input item whose id differs |
| `LineItems.RemoveItemAppend` | gst_bill_maker_offline_pwa_ready_react_app.jsx:127 | removal distributes over concatenation, so the kept items stay in order |
| `LineItems.RemoveAbsentId` | gst_bill_maker_offline_pwa_ready_react_app.jsx:127 | removing an id no item has leaves the list unchanged |
| `LineItems.RemoveItemIdempotent` | gst_bill_maker_offline_pwa_ready_react_app.jsx:127 | removing the same id twice is the same as removing it once |
| `Tax.SubtotalCons` | gst_bill_maker_offline_pwa_ready_react_app.jsx:82 | the left-fold subtotal also splits off the first item |
| `LineItems.RemoveItemSubtotal` | gst_bill_maker_offline_pwa_ready_react_app.jsx:126-128 | with non-negative lines, removing items never raises the subtotal |
| `LineItems.ApplyEdit` | gst_bill_maker_offline_pwa_ready_react_app.jsx:372-386 | an edit sets the one field it names (numeric inputs as numbers); every other field, the id included, is unchanged |
| `LineItems.EditItem` | gst_bill_maker_offline_pwa_ready_react_app.jsx:372-386 | the length is kept; every item with the id gets the edit and every other item is unchanged |
| `LineItems.EditThenRemove` | gst_bill_maker_offline_pwa_ready_react_app.jsx:372-396 | editing an item and then deleting it is the same as just deleting it |
| `LineItems.TextEditKeepsTotals` | gst_bill_maker_offline_pwa_ready_react_app.jsx:372-377 | renaming an item or changing its HSN leaves every total unchanged |
| `LineItems.QtyEditLines` | gst_bill_maker_offline_pwa_ready_react_app.jsx:378-380 | after a quantity edit, each item with the id is worth q × price and every other line is unchanged |
| `StateUpdate.IsJurisdictional` | gst_bill_maker_offline_pwa_ready_react_app.jsx:113 | only a text leaf can trigger the re-derivation, and every path that writes the client's or the business's state does |
| `StateUpdate.DerivedPlace` | gst_bill_maker_offline_pwa_ready_react_app.jsx:116 | the derived place is the client's state when that is non-empty, else the business's state |
| `StateUpdate.Update` | gst_bill_maker_offline_pwa_ready_react_app.jsx:105-120 | the targeted leaf takes its value and every other leaf, the items and the unlock flag stay. After a change to a state or the place of supply, `interState = (profile.state ≠ client.state)` and the place of supply is re-derived. Any other path leaves both alone, except that the switch sets the flag. A flag that agreed with the states still agrees unless the switch was used |
| `StateUpdate.PickPlaceOfSupply` | gst_bill_maker_offline_pwa_ready_react_app.jsx:113-116 | whatever place is picked, the place of supply afterwards is the one derived from the two states (the client's, else the business's), so a pick survives only when it equals that place; the flag is reset to whether the two states differ, and every other part of the state is unchanged |
| `License.Matches` | gst_bill_maker_offline_pwa_ready_react_app.jsx:165 | a match of a pattern always covers a slice of the string: it starts no later than it ends, and ends within the string |
| `License.CatSplit` | gst_bill_maker_offline_pwa_ready_react_app.jsx:165 | a concatenation match has a split point |
| `License.LitMatches` | gst_bill_maker_offline_pwa_ready_react_app.jsx:165 | a literal matches exactly the slice that spells it |
| `License.PowerMatches` | gst_bill_maker_offline_pwa_ready_react_app.jsx:165 | `[A-Z0-9]{n}` matches exactly n characters from A-Z and 0-9 |
| `License.CatLitMatches` | gst_bill_maker_offline_pwa_ready_react_app.jsx:165 | a literal followed by t matches when the text spells the literal and t matches after it |
| `License.CatAltMatches` | gst_bill_maker_offline_pwa_ready_react_app.jsx:165 | a choice of a or b followed by t matches exactly when a then t, or b then t, matches |
| `License.TailMatchesIff` | gst_bill_maker_offline_pwa_ready_react_app.jsx:165 | `-[A-Z0-9]{6}$` from position 8 matches exactly a 15-character key with `-` at 8 and the class after it |
| `License.YearTailMatchesIff` | gst_bill_maker_offline_pwa_ready_react_app.jsx:165 | the year group, dash and suffix from position 4 match exactly a year of 2025 or 2026 followed by such a tail |
| `License.PatternMatchesIff` | gst_bill_maker_offline_pwa_ready_react_app.jsx:165 | the anchored pattern `LicensePattern`, matched from 0 to the key's length, accepts a string exactly when it has 15 characters: "NSQ-", then "2025" or "2026", then "-", then six characters from A-Z and 0-9 |
| `License.UnlockPro` | gst_bill_maker_offline_pwa_ready_react_app.jsx:163-171 | a key of that format sets `proUnlocked` and stores the key, with nothing else changed; any other key changes nothing |
| `License.UnlockMonotone` | gst_bill_maker_offline_pwa_ready_react_app.jsx:166-167 | an unlock attempt never re-locks, and repeating it changes nothing more |
| `License.SampleKeys` | gst_bill_maker_offline_pwa_ready_react_app.jsx:165 | "NSQ-2025-ABC123" and "NSQ-2026-000000" are accepted; a 2024 year, lower case, a 7-character suffix and a missing dash are rejected |

## Left out

- Numeric fields holding text (`Number("12")`, `Number("abc")`) or ±Infinity are not modelled. The app is meant to read every non-numeric or non-finite value as 0, but the code does not: a non-numeric text gives NaN and Infinity stays Infinity, and both propagate through the sums. The model follows the code for absent, falsy and NaN values, which do read as 0.
- IEEE-754 rounding is not modelled: amounts are exact reals, so the exact identities above are the exact-arithmetic versions.
- `load`/`save` through local storage and the fallback to the default state are platform I/O.
- `importJSON`/`exportJSON` are file and JSON handling, so they are not modelled. Neither is the serialisation round trip.
- `printPDF` and `share` call the print dialog, a timer and the share sheet.
- `currency` wraps `Intl.NumberFormat`.
- `uid` uses `Math.random`. Ids are parameters (`AddItem`'s `id`, `DefaultData`'s `demoId`). So is today's date (`DefaultData`'s `today`).
- `structuredClone` is a value copy: datatypes are values.
- The rendering is UI and is not modelled. This covers the print view, the watermark and logo conditions, the rate picker's `customRates` list and the disabled logo input.
- The unused `gstAmt` reduction (line 83) is not a member of `ComputeTotals`. It appears as `LineGst`, the per-line tax that `NoDiscountTaxIsPerLineTax` compares with total GST.
- React state and `useMemo` scheduling are not modelled. `addItem`, `removeItem`, the item edits and `unlockPro` hand `setData` a spread of the previous state. That spread replaces only `invoice.items`, or only `proUnlocked` and `licenseKey`. The model states the list operations on the item sequence and `UnlockPro` on the whole state.
- `update` with an arbitrary dotted path is not modelled. The model has one typed setter per path the editor uses. An unknown path, or a value of the wrong type, is not modelled.
- The alert on an invalid key is UI: `UnlockPro` returns the state unchanged.
- `typeof key === 'string'` is always true in the model, because keys are strings.
- Subtotal: its own contract states only the empty case. `SubtotalCons` states the step that, with it, fixes the value. `SubtotalNonNegative` and `SameAmountsSameSums` state properties of the sum. A contract that ranges over all items would have to be re-proved at every use of the sum.
- LineGst: its own contract states only the empty case. `LineGstCons` states the step that, with it, fixes the value. `UniformLineGst`, `LineGstBounds`, `WeightedSum` and `SameAmountsSameSums` state properties of the sum. The reason is the same.
- LineTax: the tax of one line has no contract of its own. `LineTaxSign` states when it is zero and when it is non-negative. A contract on the function would join every proof that uses the tax sum.
