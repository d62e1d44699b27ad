# Invoice generator — a verified model

This project models the core of the invoice generator page of InvoiceAI
(`src/pages/InvoiceGenerator.tsx`). The page lets a user fill in an invoice
form, and on submit it draws the invoice as a PDF. The model covers:

- the fixed currency table and the symbol lookup, which falls back to `$`;
- the line-item list: append a blank row, remove a row with
  `splice(index, 1)`, and edit one field of one row;
- the total, a reduce computing Σ quantity × rate;
- the record a fresh form starts from, and the setters its inputs call;
- the PDF layout. The document is modelled as the ordered list of draw
  calls (`text`, `addImage`, `autoTable`) the submit handler issues. The
  table's end coordinate is computed by the table library, so it enters
  as a parameter.

Modules:

- `Wrappers`: the `Option` datatype the lookups and parsers return.
- `Strings`
  - `Split`/`Join` on a one-character separator.
  - `IntToString`, the decimal rendering used for quantities, with its
    parser `ParseInt`.
  - `FormatCents`, the two-decimal rendering used for money, with its
    parser `ParseCents`.
- `Currencies`: the table, `Find` (the array `find`) and
  `GetCurrencySymbol`.
- `LineItems`: the `LineItem` value, `Appended`, `SpliceStart`/`Spliced`
  (the exact clamping and negative-index rules of `splice`), `Edited`,
  `EditAt` and `Total`.
- `Form`
  - The `InvoiceData` record and `InitialData`.
  - The class `InvoiceForm`. It holds the record the way the page's state
    hook does, and each of its methods replaces the record with an updated
    copy.
- `Render`
  - The `Document` class, which accumulates draw calls.
  - The imperative generator `RenderInvoice`. It calls one method per
    region, and `DrawLines` is the `forEach` loop over address lines.
  - One specification function per region (`HeaderOps`, `MetaOps`,
    `SenderOps`, …). `Layout` joins them.
  - The lemmas about the layout.

Money is kept as integer cents, and quantities are integers.
`toFixed(2)` is the concrete function `FormatCents`, proved loss-free by
its parser. Each text carries an abstract `Style`, which stands for the
font size and weight set before it: Heading 24, Label 10, Body 12,
Emphasis 14 bold.

Two facts about the code shape the model:

- `removeItem` has no guard. The "at least one item" rule holds only
  because the remove button is rendered while more than one row exists
  (line 491), so `InvoiceForm.RemoveItem` requires that condition.
- The `FileReader` promise that encodes the logo has no error path, so no
  encoding error is modelled.

## Model

| member | source | states |
|---|---|---|
| Currencies.Find | src/pages/InvoiceGenerator.tsx:98-101 | a found entry is in the table and has the searched code; nothing is found exactly when no entry has the code |
| Currencies.Table | src/pages/InvoiceGenerator.tsx:33-44 | the ten entries, codes, symbols and names, in dropdown order; no ensures (a constant), characterised by CodesDistinct, SymbolOfListed and EuroSymbol |
| Currencies.FindFirst | src/pages/InvoiceGenerator.tsx:99 | a found entry is the first table entry carrying the code, as `find` returns |
| Currencies.GetCurrencySymbol | src/pages/InvoiceGenerator.tsx:98-101 | no ensures; characterised by SymbolOfListed, SymbolOfUnlisted and SymbolAlwaysFromTable |
| Currencies.CodesDistinct | src/pages/InvoiceGenerator.tsx:33-44 | no two table entries share a code |
| Currencies.FindListed | src/pages/InvoiceGenerator.tsx:99 | in a table with distinct codes, searching an entry's code finds that entry |
| Currencies.SymbolOfListed | src/pages/InvoiceGenerator.tsx:98-101 | every listed code resolves to its own entry's symbol |
| Currencies.SymbolOfUnlisted | src/pages/InvoiceGenerator.tsx:98-101 | every code outside the table resolves to `$` |
| Currencies.SymbolAlwaysFromTable | src/pages/InvoiceGenerator.tsx:98-101 | every lookup yields a symbol that some table entry carries |
| Currencies.EuroSymbol | src/pages/InvoiceGenerator.tsx:33-44 | `EUR` resolves to `€` |
| Currencies.UnknownCodeSymbol | src/pages/InvoiceGenerator.tsx:98-101 | `XYZ` resolves to `$` |
| LineItems.Amount | src/pages/InvoiceGenerator.tsx:193 | quantity × rate in cents; no ensures, characterised by TotalIsSum and RowCells |
| LineItems.Appended | src/pages/InvoiceGenerator.tsx:81-86 | one row longer; earlier rows unchanged and in order; the new last row is blank |
| LineItems.SpliceStart | src/pages/InvoiceGenerator.tsx:90 | the start position lies within the list; an in-range index is kept; a negative index counts from the end; an index past the end clamps to the length and one before the start clamps to 0 |
| LineItems.Spliced | src/pages/InvoiceGenerator.tsx:88-92 | an index past the end changes nothing; otherwise, on a non-empty list, the length drops by one |
| LineItems.SplicedRemovesOne | src/pages/InvoiceGenerator.tsx:88-92 | for an index inside the list, exactly that row is deleted and the rest keep their order |
| LineItems.SplicedUndoesAppended | src/pages/InvoiceGenerator.tsx:81-92 | removing the row just appended restores the list |
| LineItems.Edited | src/pages/InvoiceGenerator.tsx:461-489 | the edited field takes the new value; every other field is unchanged |
| LineItems.EditAt | src/pages/InvoiceGenerator.tsx:461-489 | same length; row `index` is edited; every other row is unchanged |
| LineItems.Total | src/pages/InvoiceGenerator.tsx:94-96 | 0 for an empty list; non-negative when every quantity and rate is |
| LineItems.TotalIsSum | src/pages/InvoiceGenerator.tsx:94-96 | the reduce equals Σ quantity × rate summed from the first row |
| LineItems.TotalConcat | src/pages/InvoiceGenerator.tsx:94-96 | the total is additive under concatenation |
| LineItems.TotalAppended | src/pages/InvoiceGenerator.tsx:81-96 | appending a blank row leaves the total unchanged |
| LineItems.TotalSpliced | src/pages/InvoiceGenerator.tsx:88-96 | removing a row takes exactly its amount off the total |
| LineItems.TotalEditAt | src/pages/InvoiceGenerator.tsx:461-489 | an edit changes the total by exactly the change in that row's amount; a description edit leaves it unchanged |
| Form.InitialData | src/pages/InvoiceGenerator.tsx:48-59 | exactly one blank item, currency USD (the table's first code), invoice number "1", empty texts, and the two given dates |
| Form.WithText | src/pages/InvoiceGenerator.tsx:375-525 | each text input replaces exactly its own field |
| Form.ListedCurrencySymbol | src/pages/InvoiceGenerator.tsx:98-101 | for a currency the dropdown offers, the lookup finds the entry and shows that entry's own symbol; the `$` fallback is never used |
| Form.RemoveKeepsOneItem | src/pages/InvoiceGenerator.tsx:491-494 | when the remove button is shown, removing an in-range row leaves at least one row |
| Form.InvoiceForm.constructor | src/pages/InvoiceGenerator.tsx:48-59 | the form starts from the initial record, holds at least one item, and its currency is a table code |
| Form.InvoiceForm.AddItem | src/pages/InvoiceGenerator.tsx:81-86 | the record's items become the appended list; all other fields are kept; at least one item remains |
| Form.InvoiceForm.RemoveItem | src/pages/InvoiceGenerator.tsx:88-92 | the items become the spliced list, one shorter; the invariant (at least one item, a listed currency) is kept |
| Form.InvoiceForm.EditItem | src/pages/InvoiceGenerator.tsx:461-489 | the items become the list with one row edited; all other fields are kept |
| Form.InvoiceForm.SelectCurrency | src/pages/InvoiceGenerator.tsx:346-352 | the currency becomes the picked entry's code; nothing else changes |
| Form.InvoiceForm.SetText | src/pages/InvoiceGenerator.tsx:375-525 | one text field is replaced; nothing else changes |
| Strings.Count | src/pages/InvoiceGenerator.tsx:172 | the number of occurrences is at most the length, and is zero exactly when the character is absent |
| Strings.Split | src/pages/InvoiceGenerator.tsx:172 | one piece more than there are separators; no piece contains the separator |
| Strings.JoinSplit | src/pages/InvoiceGenerator.tsx:172-185 | joining the split pieces with the separator gives the text back |
| Strings.SplitJoin | src/pages/InvoiceGenerator.tsx:172-185 | splitting a join of separator-free pieces gives the pieces back |
| Strings.NatToDigits | src/pages/InvoiceGenerator.tsx:191 | at least one digit, all digits, no leading zero |
| Strings.DigitsRoundTrip | src/pages/InvoiceGenerator.tsx:191 | the digits of `n` denote `n` |
| Strings.IntToString | src/pages/InvoiceGenerator.tsx:191 | non-empty; starts with a minus sign exactly for negatives; digits only otherwise |
| Strings.ParseIntToString | src/pages/InvoiceGenerator.tsx:191 | the quantity text reads back as the quantity |
| Strings.FormatCents | src/pages/InvoiceGenerator.tsx:192-193 | a point three from the end with two digits after it; a minus sign exactly for negative amounts |
| Strings.ParseFormatCents | src/pages/InvoiceGenerator.tsx:243 | every amount is recovered from its two-decimal text |
| Render.Document.constructor | src/pages/InvoiceGenerator.tsx:120 | a new document has no draw calls |
| Render.Document.Text | src/pages/InvoiceGenerator.tsx:126 | a text call appends exactly one text draw call |
| Render.Document.AddImage | src/pages/InvoiceGenerator.tsx:130 | an image call appends exactly one image draw call |
| Render.Document.AutoTable | src/pages/InvoiceGenerator.tsx:197-210 | the table call appends exactly one table draw call |
| Render.Money | src/pages/InvoiceGenerator.tsx:192-193 | the symbol followed by the two-decimal text; no ensures, characterised by RowCells and ClosingBlock |
| Render.HeaderOps | src/pages/InvoiceGenerator.tsx:124-131 | title, then the logo when given; no ensures, characterised by DrawTitle, LogoRegion and ImageIsLogo |
| Render.PoOps | src/pages/InvoiceGenerator.tsx:157-164 | the PO label and value rows, only with a PO number; no ensures, characterised by PoRegion and PoNumberDoesNotShift |
| Render.MetaOps | src/pages/InvoiceGenerator.tsx:133-164 | the number, date and due-date rows, then the PO rows; no ensures, characterised by DrawMeta, MetaIsText and MetaAtEighty |
| Render.PartyOps | src/pages/InvoiceGenerator.tsx:166-185 | a caption, then the lines of the split text; no ensures, characterised by PartyLayout and PartyIsText |
| Render.SenderOps | src/pages/InvoiceGenerator.tsx:166-175 | the "Who is this from?" block at 70 with lines from 80; no ensures, characterised by AddressLinesDrawn and AddressBudget |
| Render.RecipientOps | src/pages/InvoiceGenerator.tsx:177-185 | the "Bill To" block at 110 with lines from 120; no ensures, characterised by AddressLinesDrawn and AddressBudget |
| Render.Row | src/pages/InvoiceGenerator.tsx:189-194 | the four cells of one item; no ensures, characterised by RowCells |
| Render.TableOps | src/pages/InvoiceGenerator.tsx:188-210 | one table call with the column heads and one row per item, starting at 150; no ensures, characterised by Rows and AmountColumnSumsToTotal |
| Render.NotesOps | src/pages/InvoiceGenerator.tsx:216-237 | the notes and terms blocks, each only with its text; no ensures, characterised by NotesAreText, NotesRegion and TermsRegion |
| Render.TotalsOps | src/pages/InvoiceGenerator.tsx:239-249 | subtotal and total rows; no ensures, characterised by TotalsAreText and ClosingBlock |
| Render.Layout | src/pages/InvoiceGenerator.tsx:120-249 | every draw call in order; no ensures, characterised by RenderInvoice and the region and shift lemmas |
| Render.FileName | src/pages/InvoiceGenerator.tsx:252 | the saved file name; no ensures, characterised by FileNameRoundTrip |
| Render.LineOps | src/pages/InvoiceGenerator.tsx:172-185 | one text per line; line `k` is at x = 15, y = top + 6k, in body style |
| Render.Rows | src/pages/InvoiceGenerator.tsx:189-194 | one row per item, in item order |
| Render.DrawLines | src/pages/InvoiceGenerator.tsx:173-175 | the loop draws exactly the line texts of the block |
| Render.DrawTitle | src/pages/InvoiceGenerator.tsx:124-131 | draws the title, and the logo when one is given |
| Render.DrawMeta | src/pages/InvoiceGenerator.tsx:133-164 | draws the number, date and due-date rows, then the PO row when there is a PO number |
| Render.DrawParties | src/pages/InvoiceGenerator.tsx:166-185 | draws the sender block, then the recipient block |
| Render.DrawNotes | src/pages/InvoiceGenerator.tsx:216-237 | draws the notes block and the terms block, each only when its text is non-empty |
| Render.DrawTotals | src/pages/InvoiceGenerator.tsx:239-249 | draws the subtotal and total rows |
| Render.RenderInvoice | src/pages/InvoiceGenerator.tsx:120-252 | the document holds exactly the draw calls of `Layout`, in order; the file name is `FileName` of the invoice number |
| Render.PartyLayout | src/pages/InvoiceGenerator.tsx:166-185 | a party block has its caption, then line breaks + 1 lines; line `k` is at (15, top + 6k); the lines joined with line breaks give the text back |
| Render.LineInParty | src/pages/InvoiceGenerator.tsx:172-185 | line `k` of a party text is drawn in its block |
| Render.AddressLinesDrawn | src/pages/InvoiceGenerator.tsx:172-185 | sender line `k` is drawn at (15, 80 + 6k) and recipient line `k` at (15, 120 + 6k) |
| Render.AddressBudget | src/pages/InvoiceGenerator.tsx:166-200 | sender lines all stay above the "Bill To" caption, and recipient lines all stay above the table top, exactly when the text has at most four line breaks |
| Render.RowCells | src/pages/InvoiceGenerator.tsx:189-194 | column 0 is the description or "Item"; the quantity, rate and amount cells read back as quantity, rate and quantity × rate after the currency symbol |
| Render.AmountColumnSumsToTotal | src/pages/InvoiceGenerator.tsx:189-240 | the amounts printed in the table add up to the invoice total |
| Render.ClosingBlock | src/pages/InvoiceGenerator.tsx:239-249 | the document ends with subtotal at E+20 and total at E+35; both show the same text: the symbol, then text that reads back as the total |
| Render.ClosingBelowTable | src/pages/InvoiceGenerator.tsx:212-248 | totals lie between E+20 and E+35 below the table; notes and terms lie at E+50 or lower |
| Render.TotalsAreText | src/pages/InvoiceGenerator.tsx:239-249 | the closing rows are texts at x ≥ 140, between finalY+10 and finalY+25, and none of them is a label |
| Render.NotesAreText | src/pages/InvoiceGenerator.tsx:216-237 | the notes block's captions lie 40 below finalY and its texts 50 below; the left caption is "Notes" and exists only with notes, the right one is "Payment Terms" and exists only with terms |
| Render.LowerLabels | src/pages/InvoiceGenerator.tsx:166-237 | below the metadata rows, a label sits at x 15 or 140; at 15 it is a party caption or "Notes" (only with notes), at 140 it is "Payment Terms" (only with terms) |
| Render.ImageIsLogo | src/pages/InvoiceGenerator.tsx:128-131 | the only image in the document is the attached logo at (15, 15), 50 × 30 |
| Render.LogoRegion | src/pages/InvoiceGenerator.tsx:128-131 | the logo is drawn exactly when one was attached |
| Render.NoLogoNoImage | src/pages/InvoiceGenerator.tsx:128-131 | without a logo no image is drawn |
| Render.PoRegion | src/pages/InvoiceGenerator.tsx:157-164 | the PO Number row appears exactly when the PO number is non-empty |
| Render.NotesRegion | src/pages/InvoiceGenerator.tsx:219-227 | the Notes caption appears at E+50 exactly when the notes are non-empty |
| Render.TermsRegion | src/pages/InvoiceGenerator.tsx:229-237 | the Payment Terms caption appears at E+50 exactly when the terms are non-empty |
| Render.PoNumberDoesNotShift | src/pages/InvoiceGenerator.tsx:133-164 | the PO row is inserted right after the due-date row; every other draw call is the same as without it |
| Render.NotesDoNotShift | src/pages/InvoiceGenerator.tsx:216-248 | notes and terms are inserted just before the closing rows; every other draw call is the same as without them |
| Render.FileNameRoundTrip | src/pages/InvoiceGenerator.tsx:252 | the file name is "invoice-" + number + ".pdf", and the number is recovered from it |
| Render.FormatTwentyFive | src/pages/InvoiceGenerator.tsx:243 | 2500 cents prints as "25.00" |
| Render.ExampleItemsTotal | src/pages/InvoiceGenerator.tsx:94-96 | items 2 × 10.00 and 1 × 5.00 total 2500 cents |
| Render.EuroMoney | src/pages/InvoiceGenerator.tsx:243 | 2500 cents in euros prints as "€25.00" |
| Render.EuroTotalExample | src/pages/InvoiceGenerator.tsx:239-248 | with EUR and those items, the total row shows "€25.00" |

E stands for the table's end coordinate (`tableEnd`), and finalY = E + 10.

## Left out

- Logo intake is browser I/O and is not modelled: the dropzone, `URL.createObjectURL`, and reading the file through `FileReader` into a data URL (lines 64-79 and 108-116). The encoded logo enters `RenderInvoice` as a string, and "" means no logo.
- The internals of jsPDF and jspdf-autotable are not modelled:
  - how text, images and tables are rasterised;
  - the JPEG format argument;
  - text colour;
  - the table theme and column styles;
  - how autoTable computes `lastAutoTable.finalY`, which is the parameter `tableEnd`.
- jsPDF wraps multi-line notes and terms texts itself. That is not modelled: each is one text draw call.
- `doc.save` is not modelled beyond computing the file name. The success and error toasts, the try/catch blocks and the loading flag are side effects and are also left out.
- Floating point is not modelled. Quantities are integers and money is integer cents. `toFixed(2)` is exact on cents, so the rounding of binary fractions does not arise.
- `toFixed` switches to exponent notation for magnitudes of 10^21 and above. `FormatCents` always prints plain digits.
- IntToString: `item.quantity.toString()` also switches to exponent notation for magnitudes of 10^21 and above; `IntToString` always prints plain digits.
- `Number(e.target.value)` in the quantity and rate inputs is not modelled: the edit carries the already-converted value. That includes `Number("")` being 0 and invalid text becoming NaN.
- The two default dates come from the clock, so `InitialData` and the `InvoiceForm` constructor take them as inputs.
- The currency dropdown's visibility toggle is not modelled, nor any other purely visual state.
- The field handlers write through `newItems[index]`, which is the same object the previous state holds. So the old state's row object changes too. The model uses values: the new list has the edited row, and no earlier list is observable afterwards, so the aliasing is not captured.
- `LineItems.Spliced` takes an integer index. JavaScript's conversion of fractional or non-numeric indices is not modelled. The page only ever passes a row position.
- Form.InvoiceForm.RemoveItem: requires the remove button to be visible (more than one row) and the index to be a row position. These are the only calls the page makes. `LineItems.Spliced` models every other index.
- `src/pages/Home.tsx`, `src/components/Layout.tsx` and `src/App.tsx` hold markup, scroll and menu UI state, and routing; they are not part of this model.
