/** The PDF the generator produces, as the list of draw calls it issues on
    the document, in order. Coordinates are millimetres from the top-left
    corner of an A4 page. The vertical end of the items table is computed
    by the table library; it is an input here (`tableEnd`). */
module Render {
  import opened Wrappers
  import opened Strings
  import opened LineItems
  import opened Currencies
  import opened Form

  datatype Align = Left | Right

  /** The font state a text is drawn in: size 24 (Heading), size 10 in grey
      (Label), size 12 (Body), size 14 bold (Emphasis). */
  datatype Style = Heading | Label | Body | Emphasis

  datatype DrawOp =
    | TextOp(text: string, x: real, y: real, align: Align, style: Style)
    | ImageOp(data: string, x: real, y: real, width: real, height: real)
    | TableOp(head: seq<string>, body: seq<seq<string>>, startY: real)

  /** A document under construction: the draw calls issued on it so far. */
  class Document {
    var ops: seq<DrawOp>

    constructor ()
      ensures ops == []
    {
      ops := [];
    }

    method Text(text: string, x: real, y: real, align: Align, style: Style)
      modifies this
      ensures ops == old(ops) + [TextOp(text, x, y, align, style)]
    {
      ops := ops + [TextOp(text, x, y, align, style)];
    }

    method AddImage(data: string, x: real, y: real, width: real, height: real)
      modifies this
      ensures ops == old(ops) + [ImageOp(data, x, y, width, height)]
    {
      ops := ops + [ImageOp(data, x, y, width, height)];
    }

    method AutoTable(head: seq<string>, body: seq<seq<string>>, startY: real)
      modifies this
      ensures ops == old(ops) + [TableOp(head, body, startY)]
    {
      ops := ops + [TableOp(head, body, startY)];
    }
  }

  // ---------------------------------------------------------------------
  // The fixed template, region by region

  /** A money value as printed: the currency symbol, then the amount with
      two decimals. */
  function Money(symbol: string, cents: int): string {
    symbol + FormatCents(cents)
  }

  /** The title, and the logo when one was attached. */
  function HeaderOps(logoUrl: string): seq<DrawOp> {
    [TextOp("INVOICE", 190.0, 20.0, Right, Heading)]
      + (if logoUrl != "" then [ImageOp(logoUrl, 15.0, 15.0, 50.0, 30.0)] else [])
  }

  /** The PO number row, only when there is a PO number. */
  function PoOps(poNumber: string): seq<DrawOp> {
    if poNumber != "" then
      [TextOp("PO Number", 150.0, 80.0, Left, Label), TextOp(poNumber, 190.0, 80.0, Right, Body)]
    else []
  }

  /** The label/value rows on the right: every row has its own fixed height. */
  function MetaOps(d: InvoiceData): seq<DrawOp> {
    [ TextOp("#", 150.0, 40.0, Left, Label), TextOp(d.invoiceNumber, 190.0, 40.0, Right, Body),
      TextOp("Date", 150.0, 50.0, Left, Label), TextOp(d.date, 190.0, 50.0, Right, Body),
      TextOp("Due Date", 150.0, 70.0, Left, Label), TextOp(d.dueDate, 190.0, 70.0, Right, Body) ]
      + PoOps(d.poNumber)
  }

  /** The height of line `k` of a block whose first line is at `top`. */
  function LineY(top: real, k: nat): real {
    top + 6.0 * (k as real)
  }

  /** One text per line, at the left margin, six millimetres apart. */
  function LineOps(lines: seq<string>, top: real): (ops: seq<DrawOp>)
    ensures |ops| == |lines|
    ensures forall k :: 0 <= k < |lines| ==> ops[k] == TextOp(lines[k], 15.0, LineY(top, k), Left, Body)
  {
    if lines == [] then []
    else
      var n := |lines| - 1;
      LineOps(lines[..n], top) + [TextOp(lines[n], 15.0, LineY(top, n), Left, Body)]
  }

  /** A party block: its caption, then the text split at line breaks. */
  function PartyOps(caption: string, captionY: real, text: string, top: real): seq<DrawOp> {
    [TextOp(caption, 15.0, captionY, Left, Label)] + LineOps(Split(text, NewLine), top)
  }

  function SenderOps(d: InvoiceData): seq<DrawOp> {
    PartyOps("Who is this from?", 70.0, d.from, 80.0)
  }

  function RecipientOps(d: InvoiceData): seq<DrawOp> {
    PartyOps("Bill To", 110.0, d.to, 120.0)
  }

  const TableHead: seq<string> := ["Item", "Quantity", "Rate", "Amount"]

  /** The table row of one item. */
  function Row(item: LineItem, symbol: string): seq<string> {
    [ if item.description != "" then item.description else "Item",
      IntToString(item.quantity),
      Money(symbol, item.rate),
      Money(symbol, Amount(item)) ]
  }

  /** `items.map(...)`: one row per item, in item order. */
  function Rows(items: seq<LineItem>, symbol: string): (rows: seq<seq<string>>)
    ensures |rows| == |items|
    ensures forall i :: 0 <= i < |items| ==> rows[i] == Row(items[i], symbol)
  {
    if items == [] then []
    else
      var n := |items| - 1;
      Rows(items[..n], symbol) + [Row(items[n], symbol)]
  }

  function TableOps(d: InvoiceData): seq<DrawOp> {
    [TableOp(TableHead, Rows(d.items, GetCurrencySymbol(d.currency)), 150.0)]
  }

  /** Notes on the left and payment terms on the right, each only when
      non-empty, both forty millimetres below `finalY`. */
  function NotesOps(d: InvoiceData, finalY: real): seq<DrawOp> {
    var notesY := finalY + 40.0;
    (if d.notes != "" then
       [TextOp("Notes", 15.0, notesY, Left, Label), TextOp(d.notes, 15.0, notesY + 10.0, Left, Body)]
     else [])
    + (if d.terms != "" then
         [TextOp("Payment Terms", 140.0, notesY, Left, Label), TextOp(d.terms, 140.0, notesY + 10.0, Left, Body)]
       else [])
  }

  /** Subtotal and total rows; both show the same amount. */
  function TotalsOps(d: InvoiceData, finalY: real): seq<DrawOp> {
    var shown := Money(GetCurrencySymbol(d.currency), Total(d.items));
    [ TextOp("Subtotal", 140.0, finalY + 10.0, Left, Body), TextOp(shown, 190.0, finalY + 10.0, Right, Body),
      TextOp("Total", 140.0, finalY + 25.0, Left, Emphasis), TextOp(shown, 190.0, finalY + 25.0, Right, Emphasis) ]
  }

  /** Everything below the metadata rows: the parties, the table, and
      the closing block placed relative to the table's end. */
  function LowerOps(d: InvoiceData, finalY: real): seq<DrawOp> {
    SenderOps(d) + RecipientOps(d) + TableOps(d) + NotesOps(d, finalY) + TotalsOps(d, finalY)
  }

  /** Everything the generator draws, in the order it draws it. */
  function Layout(d: InvoiceData, logoUrl: string, tableEnd: real): seq<DrawOp> {
    HeaderOps(logoUrl) + MetaOps(d) + LowerOps(d, tableEnd + 10.0)
  }

  /** The name the document is saved under. */
  function FileName(invoiceNumber: string): string {
    "invoice-" + invoiceNumber + ".pdf"
  }

  // ---------------------------------------------------------------------
  // The generator, call by call

  /** `lines.forEach((line, index) => doc.text(line, 15, top + index * 6))`. */
  method DrawLines(doc: Document, lines: seq<string>, top: real)
    modifies doc
    ensures doc.ops == old(doc.ops) + LineOps(lines, top)
  {
    var k := 0;
    while k < |lines|
      invariant 0 <= k <= |lines|
      invariant doc.ops == old(doc.ops) + LineOps(lines[..k], top)
    {
      assert lines[..k + 1][..k] == lines[..k];
      doc.Text(lines[k], 15.0, top + (k as real) * 6.0, Left, Body);
      k := k + 1;
    }
    assert lines[..k] == lines;
  }

  method DrawTitle(doc: Document, logoUrl: string)
    modifies doc
    ensures doc.ops == old(doc.ops) + HeaderOps(logoUrl)
  {
    doc.Text("INVOICE", 190.0, 20.0, Right, Heading);
    if logoUrl != "" {
      doc.AddImage(logoUrl, 15.0, 15.0, 50.0, 30.0);
    }
  }

  method DrawMeta(doc: Document, d: InvoiceData)
    modifies doc
    ensures doc.ops == old(doc.ops) + MetaOps(d)
  {
    doc.Text("#", 150.0, 40.0, Left, Label);
    doc.Text(d.invoiceNumber, 190.0, 40.0, Right, Body);
    doc.Text("Date", 150.0, 50.0, Left, Label);
    doc.Text(d.date, 190.0, 50.0, Right, Body);
    doc.Text("Due Date", 150.0, 70.0, Left, Label);
    doc.Text(d.dueDate, 190.0, 70.0, Right, Body);
    ghost var fixed := doc.ops;
    if d.poNumber != "" {
      doc.Text("PO Number", 150.0, 80.0, Left, Label);
      doc.Text(d.poNumber, 190.0, 80.0, Right, Body);
    }
    assert doc.ops == fixed + PoOps(d.poNumber);
  }

  method DrawParties(doc: Document, d: InvoiceData)
    modifies doc
    ensures doc.ops == old(doc.ops) + SenderOps(d) + RecipientOps(d)
  {
    doc.Text("Who is this from?", 15.0, 70.0, Left, Label);
    DrawLines(doc, Split(d.from, NewLine), 80.0);
    ghost var mid := doc.ops;
    assert mid == old(doc.ops) + SenderOps(d);
    doc.Text("Bill To", 15.0, 110.0, Left, Label);
    DrawLines(doc, Split(d.to, NewLine), 120.0);
    assert doc.ops == mid + RecipientOps(d);
  }

  method DrawNotes(doc: Document, d: InvoiceData, finalY: real)
    modifies doc
    ensures doc.ops == old(doc.ops) + NotesOps(d, finalY)
  {
    var notesStartY := finalY + 40.0;
    if d.notes != "" {
      doc.Text("Notes", 15.0, notesStartY, Left, Label);
      doc.Text(d.notes, 15.0, notesStartY + 10.0, Left, Body);
    }
    if d.terms != "" {
      doc.Text("Payment Terms", 140.0, notesStartY, Left, Label);
      doc.Text(d.terms, 140.0, notesStartY + 10.0, Left, Body);
    }
  }

  method DrawTotals(doc: Document, d: InvoiceData, symbol: string, finalY: real)
    requires symbol == GetCurrencySymbol(d.currency)
    modifies doc
    ensures doc.ops == old(doc.ops) + TotalsOps(d, finalY)
  {
    var total := Total(d.items);
    doc.Text("Subtotal", 140.0, finalY + 10.0, Left, Body);
    doc.Text(symbol + FormatCents(total), 190.0, finalY + 10.0, Right, Body);
    doc.Text("Total", 140.0, finalY + 25.0, Left, Emphasis);
    doc.Text(symbol + FormatCents(total), 190.0, finalY + 25.0, Right, Emphasis);
  }

  /** Builds the invoice document from the form record and returns it with
      the file name it is saved under. Nothing about the record is checked
      first: a due date before the issue date, empty parties and an empty
      item description all render. */
  method RenderInvoice(d: InvoiceData, logoUrl: string, tableEnd: real)
    returns (doc: Document, fileName: string)
    ensures fresh(doc)
    ensures doc.ops == Layout(d, logoUrl, tableEnd)
    ensures fileName == FileName(d.invoiceNumber)
  {
    doc := new Document();
    var symbol := GetCurrencySymbol(d.currency);
    DrawTitle(doc, logoUrl);
    DrawMeta(doc, d);
    ghost var upper := doc.ops;
    assert upper == HeaderOps(logoUrl) + MetaOps(d);
    DrawParties(doc, d);
    doc.AutoTable(TableHead, Rows(d.items, symbol), 150.0);
    var finalY := tableEnd + 10.0;
    DrawNotes(doc, d, finalY);
    DrawTotals(doc, d, symbol, finalY);
    Regroup(upper, SenderOps(d), RecipientOps(d), TableOps(d), NotesOps(d, finalY), TotalsOps(d, finalY));
    fileName := "invoice-" + d.invoiceNumber + ".pdf";
  }

  // ---------------------------------------------------------------------
  // What the template guarantees

  /** The texts drawn by a list of draw calls, in order. */
  function TextsOf(ops: seq<DrawOp>): seq<string> {
    if ops == [] then []
    else (if ops[0].TextOp? then [ops[0].text] else []) + TextsOf(ops[1..])
  }

  lemma {:induction false} TextsOfConcat(a: seq<DrawOp>, b: seq<DrawOp>)
    ensures TextsOf(a + b) == TextsOf(a) + TextsOf(b)
  {
    if a == [] {
      assert a + b == b;
    } else {
      assert (a + b)[0] == a[0];
      assert (a + b)[1..] == a[1..] + b;
      TextsOfConcat(a[1..], b);
    }
  }

  lemma {:induction false} TextsOfLines(lines: seq<string>, top: real)
    ensures TextsOf(LineOps(lines, top)) == lines
  {
    if lines != [] {
      var n := |lines| - 1;
      var last := TextOp(lines[n], 15.0, LineY(top, n), Left, Body);
      TextsOfLines(lines[..n], top);
      TextsOfConcat(LineOps(lines[..n], top), [last]);
      assert TextsOf([last]) == [lines[n]];
      assert lines[..n] + [lines[n]] == lines;
    }
  }

  /** A party block draws its caption and then one line per line of the
      text: line `k` at the left margin, `6k` below the first; there is one
      line more than there are line breaks, and the drawn lines joined with
      line breaks give the text back. */
  lemma PartyLayout(caption: string, captionY: real, text: string, top: real)
    ensures var ops := PartyOps(caption, captionY, text, top);
            var lines := Split(text, NewLine);
      && |ops| == Count(text, NewLine) + 2
      && ops[0] == TextOp(caption, 15.0, captionY, Left, Label)
      && (forall k :: 0 <= k < |lines| ==> ops[1..][k] == TextOp(lines[k], 15.0, LineY(top, k), Left, Body))
      && Join(TextsOf(ops[1..]), NewLine) == text
  {
    var ops := PartyOps(caption, captionY, text, top);
    var lines := Split(text, NewLine);
    assert ops[1..] == LineOps(lines, top);
    TextsOfLines(lines, top);
    JoinSplit(text, NewLine);
  }

  /** Line `k` of a party block is one of its draw calls. */
  lemma LineInParty(caption: string, captionY: real, text: string, top: real, k: nat)
    requires k < |Split(text, NewLine)|
    ensures TextOp(Split(text, NewLine)[k], 15.0, LineY(top, k), Left, Body) in PartyOps(caption, captionY, text, top)
  {
    assert PartyOps(caption, captionY, text, top)[1 + k]
        == TextOp(Split(text, NewLine)[k], 15.0, LineY(top, k), Left, Body);
  }

  /** Sender line `k` is drawn at (15, 80 + 6k) and recipient line `k` at
      (15, 120 + 6k). */
  lemma AddressLinesDrawn(d: InvoiceData, logoUrl: string, tableEnd: real, k: nat)
    ensures var lines := Split(d.from, NewLine);
      k < |lines| ==> TextOp(lines[k], 15.0, LineY(80.0, k), Left, Body) in Layout(d, logoUrl, tableEnd)
    ensures var lines := Split(d.to, NewLine);
      k < |lines| ==> TextOp(lines[k], 15.0, LineY(120.0, k), Left, Body) in Layout(d, logoUrl, tableEnd)
  {
    var from, to := Split(d.from, NewLine), Split(d.to, NewLine);
    if k < |from| {
      var op := TextOp(from[k], 15.0, LineY(80.0, k), Left, Body);
      LineInParty("Who is this from?", 70.0, d.from, 80.0, k);
      assert op in LowerOps(d, tableEnd + 10.0);
    }
    if k < |to| {
      var op := TextOp(to[k], 15.0, LineY(120.0, k), Left, Body);
      LineInParty("Bill To", 110.0, d.to, 120.0, k);
      assert op in LowerOps(d, tableEnd + 10.0);
    }
  }

  /** Lines `0..n-1` of a block all lie above `limit` exactly when the last
      one does. */
  lemma LinesAbove(n: nat, top: real, limit: real)
    ensures (forall k :: 0 <= k < n ==> LineY(top, k) < limit) <==> (n == 0 || LineY(top, n - 1) < limit)
  {
    if n > 0 && LineY(top, n - 1) < limit {
      forall k | 0 <= k < n
        ensures LineY(top, k) < limit
      {
        assert (k as real) <= ((n - 1) as real);
      }
    }
  }

  /** The sender lines all stay above the "Bill To" caption, and the
      recipient lines all stay above the top of the items table, exactly
      when the text has at most four line breaks (five lines). */
  lemma AddressBudget(d: InvoiceData)
    ensures (forall k :: 0 <= k < |Split(d.from, NewLine)| ==> LineY(80.0, k) < 110.0)
        <==> Count(d.from, NewLine) <= 4
    ensures (forall k :: 0 <= k < |Split(d.to, NewLine)| ==> LineY(120.0, k) < 150.0)
        <==> Count(d.to, NewLine) <= 4
  {
    var n, m := |Split(d.from, NewLine)|, |Split(d.to, NewLine)|;
    LinesAbove(n, 80.0, 110.0);
    LinesAbove(m, 120.0, 150.0);
    assert LineY(80.0, n - 1) == 80.0 + 6.0 * ((n - 1) as real);
    assert LineY(120.0, m - 1) == 120.0 + 6.0 * ((m - 1) as real);
  }

  /** Each table row shows the description (or "Item" when it is empty),
      the quantity, and the rate and amount after the currency symbol, each
      of which reads back as the number it shows. */
  lemma RowCells(item: LineItem, symbol: string)
    ensures var row := Row(item, symbol);
      && |row| == 4
      && row[0] == (if item.description == "" then "Item" else item.description)
      && ParseInt(row[1]) == Some(item.quantity)
      && row[2][..|symbol|] == symbol && ParseCents(row[2][|symbol|..]) == Some(item.rate)
      && row[3][..|symbol|] == symbol && ParseCents(row[3][|symbol|..]) == Some(Amount(item))
  {
    var row := Row(item, symbol);
    ParseIntToString(item.quantity);
    ParseFormatCents(item.rate);
    ParseFormatCents(Amount(item));
    assert row[2][|symbol|..] == FormatCents(item.rate);
    assert row[3][|symbol|..] == FormatCents(Amount(item));
  }

  /** The cents a money cell printed with `symbol` shows, 0 if unreadable. */
  function CellCents(cell: string, symbol: string): int {
    if |symbol| <= |cell| then
      match ParseCents(cell[|symbol|..])
      case Some(v) => v
      case None => 0
    else 0
  }

  /** The sum of the amount column of a table body. */
  function AmountColumnSum(rows: seq<seq<string>>, symbol: string): int {
    if rows == [] then 0
    else
      var last := rows[|rows| - 1];
      AmountColumnSum(rows[..|rows| - 1], symbol) + (if |last| == 4 then CellCents(last[3], symbol) else 0)
  }

  /** The amounts printed in the table add up to the invoice total. */
  lemma {:induction false} AmountColumnSumsToTotal(items: seq<LineItem>, symbol: string)
    ensures AmountColumnSum(Rows(items, symbol), symbol) == Total(items)
  {
    if items != [] {
      var n := |items| - 1;
      AmountColumnSumsToTotal(items[..n], symbol);
      RowCells(items[n], symbol);
      var rows := Rows(items, symbol);
      assert rows[..n] == Rows(items[..n], symbol);
    }
  }

  /** The closing block: the subtotal row 20 below the table's end, the
      total row 35 below it, both showing the same text, which is the
      currency symbol followed by the total of the items. */
  lemma ClosingBlock(d: InvoiceData, logoUrl: string, tableEnd: real)
    ensures var L := Layout(d, logoUrl, tableEnd);
            var symbol := GetCurrencySymbol(d.currency);
            var n := |L|;
      && n >= 4
      && L[n - 4] == TextOp("Subtotal", 140.0, tableEnd + 20.0, Left, Body)
      && L[n - 2] == TextOp("Total", 140.0, tableEnd + 35.0, Left, Emphasis)
      && L[n - 3].TextOp? && L[n - 3].y == tableEnd + 20.0 && L[n - 3].style == Body
      && L[n - 1].TextOp? && L[n - 1].y == tableEnd + 35.0 && L[n - 1].style == Emphasis
      && L[n - 3].text == L[n - 1].text
      && L[n - 1].text[..|symbol|] == symbol
      && ParseCents(L[n - 1].text[|symbol|..]) == Some(Total(d.items))
  {
    var symbol := GetCurrencySymbol(d.currency);
    var shown := Money(symbol, Total(d.items));
    ParseFormatCents(Total(d.items));
    assert shown[|symbol|..] == FormatCents(Total(d.items));
  }

  /** Everything drawn after the table lies below its end: the totals
      between 20 and 35 below it, notes and terms 50 or more below it. */
  lemma ClosingBelowTable(d: InvoiceData, tableEnd: real)
    ensures forall op :: op in TotalsOps(d, tableEnd + 10.0) ==>
      op.TextOp? && tableEnd + 20.0 <= op.y <= tableEnd + 35.0
    ensures forall op :: op in NotesOps(d, tableEnd + 10.0) ==>
      op.TextOp? && op.y >= tableEnd + 50.0
  {
    var finalY := tableEnd + 10.0;
    forall op | op in TotalsOps(d, finalY)
      ensures op.TextOp? && tableEnd + 20.0 <= op.y <= tableEnd + 35.0
    {
      TotalsAreText(d, finalY, op);
    }
    forall op | op in NotesOps(d, finalY)
      ensures op.TextOp? && op.y >= tableEnd + 50.0
    {
      NotesAreText(d, finalY, op);
    }
  }

  /** Every text of a line block is body text at the left margin. */
  lemma LineOpsAreBody(lines: seq<string>, top: real)
    ensures forall op :: op in LineOps(lines, top) ==> op.TextOp? && op.x == 15.0 && op.style == Body
  {
    forall op | op in LineOps(lines, top)
      ensures op.TextOp? && op.x == 15.0 && op.style == Body
    {
      var k :| 0 <= k < |lines| && LineOps(lines, top)[k] == op;
    }
  }

  /** Sequence algebra: regrouping a left-nested concatenation. */
  lemma Regroup<T>(x: seq<T>, c: seq<T>, d: seq<T>, e: seq<T>, f: seq<T>, g: seq<T>)
    ensures x + c + d + e + f + g == x + (c + d + e + f + g)
  {
    assert x + c + d == x + (c + d);
    assert x + c + d + e == x + (c + d + e);
    assert x + c + d + e + f == x + (c + d + e + f);
  }

  /** A party block draws texts only, and its one label is its caption. */
  lemma PartyIsText(caption: string, captionY: real, text: string, top: real, op: DrawOp)
    requires op in PartyOps(caption, captionY, text, top)
    ensures op.TextOp? && op.x == 15.0 && (op.style == Label ==> op.text == caption)
  {
    LineOpsAreBody(Split(text, NewLine), top);
  }

  /** Every draw call of the document comes from one of its three parts. */
  lemma LayoutParts(d: InvoiceData, logoUrl: string, tableEnd: real, op: DrawOp)
    requires op in Layout(d, logoUrl, tableEnd)
    ensures op in HeaderOps(logoUrl) || op in MetaOps(d) || op in LowerOps(d, tableEnd + 10.0)
  {
  }

  /** Every draw call below the metadata rows comes from one of its blocks. */
  lemma LowerParts(d: InvoiceData, finalY: real, op: DrawOp)
    requires op in LowerOps(d, finalY)
    ensures || op in SenderOps(d) || op in RecipientOps(d) || op in TableOps(d)
            || op in NotesOps(d, finalY) || op in TotalsOps(d, finalY)
  {
  }

  /** The closing rows are texts in the columns at 140 and 190, none of
      them a label. */
  lemma TotalsAreText(d: InvoiceData, finalY: real, op: DrawOp)
    requires op in TotalsOps(d, finalY)
    ensures op.TextOp? && op.style != Label && op.x >= 140.0
    ensures finalY + 10.0 <= op.y <= finalY + 25.0
  {
  }

  /** The notes block holds texts; its labels are its two captions. */
  lemma NotesAreText(d: InvoiceData, finalY: real, op: DrawOp)
    requires op in NotesOps(d, finalY)
    ensures op.TextOp? && (op.x == 15.0 || op.x == 140.0)
    ensures op.style == Label ==> op.y == finalY + 40.0
    ensures op.style == Body ==> op.y == finalY + 50.0
    ensures op.style == Label && op.x == 15.0 ==> op.text == "Notes" && d.notes != ""
    ensures op.style == Label && op.x == 140.0 ==> op.text == "Payment Terms" && d.terms != ""
  {
  }

  /** The metadata rows are texts; their labels sit in the column at 150. */
  lemma MetaIsText(d: InvoiceData, op: DrawOp)
    requires op in MetaOps(d)
    ensures op.TextOp? && op.style != Heading
    ensures op.style == Label ==> op.x == 150.0
  {
  }

  /** The metadata row at height 80 is the PO number row. */
  lemma MetaAtEighty(d: InvoiceData, op: DrawOp)
    requires op in MetaOps(d) && op.TextOp? && op.y == 80.0
    ensures op in PoOps(d.poNumber) && d.poNumber != ""
  {
  }

  /** The metadata rows are part of the document. */
  lemma MetaInLayout(d: InvoiceData, logoUrl: string, tableEnd: real, op: DrawOp)
    requires op in MetaOps(d)
    ensures op in Layout(d, logoUrl, tableEnd)
  {
    assert op in HeaderOps(logoUrl) + MetaOps(d);
  }

  /** The notes block is part of the document. */
  lemma NotesInLayout(d: InvoiceData, logoUrl: string, tableEnd: real, op: DrawOp)
    requires op in NotesOps(d, tableEnd + 10.0)
    ensures op in Layout(d, logoUrl, tableEnd)
  {
    assert op in LowerOps(d, tableEnd + 10.0);
  }

  /** The label-style texts below the metadata rows are the two party
      captions at the left margin and the captions of the notes block,
      each present only with its text. */
  lemma LowerLabels(d: InvoiceData, finalY: real, op: DrawOp)
    requires op in LowerOps(d, finalY) && op.TextOp? && op.style == Label
    ensures op.x == 15.0 || op.x == 140.0
    ensures op.x == 15.0 ==>
      op.text == "Who is this from?" || op.text == "Bill To" || (op.text == "Notes" && d.notes != "")
    ensures op.x == 140.0 ==> op.text == "Payment Terms" && d.terms != ""
  {
    LowerParts(d, finalY, op);
    if op in SenderOps(d) {
      PartyIsText("Who is this from?", 70.0, d.from, 80.0, op);
    } else if op in RecipientOps(d) {
      PartyIsText("Bill To", 110.0, d.to, 120.0, op);
    } else if op in NotesOps(d, finalY) {
      NotesAreText(d, finalY, op);
    } else if op in TotalsOps(d, finalY) {
      TotalsAreText(d, finalY, op);
    }
  }

  /** No image is drawn below the metadata rows. */
  lemma LowerHasNoImages(d: InvoiceData, finalY: real, op: DrawOp)
    requires op in LowerOps(d, finalY)
    ensures !op.ImageOp?
  {
    LowerParts(d, finalY, op);
    if op in SenderOps(d) {
      PartyIsText("Who is this from?", 70.0, d.from, 80.0, op);
    } else if op in RecipientOps(d) {
      PartyIsText("Bill To", 110.0, d.to, 120.0, op);
    } else if op in NotesOps(d, finalY) {
      NotesAreText(d, finalY, op);
    } else if op in TotalsOps(d, finalY) {
      TotalsAreText(d, finalY, op);
    }
  }

  /** The header is part of the document. */
  lemma HeaderInLayout(d: InvoiceData, logoUrl: string, tableEnd: real, op: DrawOp)
    requires op in HeaderOps(logoUrl)
    ensures op in Layout(d, logoUrl, tableEnd)
  {
    assert op in HeaderOps(logoUrl) + MetaOps(d);
  }

  /** The only image of the document is the attached logo. */
  lemma ImageIsLogo(d: InvoiceData, logoUrl: string, tableEnd: real, op: DrawOp)
    requires op in Layout(d, logoUrl, tableEnd) && op.ImageOp?
    ensures logoUrl != "" && op == ImageOp(logoUrl, 15.0, 15.0, 50.0, 30.0)
  {
    LayoutParts(d, logoUrl, tableEnd, op);
    if op in MetaOps(d) {
      MetaIsText(d, op);
    } else if op in LowerOps(d, tableEnd + 10.0) {
      LowerHasNoImages(d, tableEnd + 10.0, op);
    }
  }

  /** The logo is drawn exactly when one was attached. */
  lemma LogoRegion(d: InvoiceData, logoUrl: string, tableEnd: real)
    ensures ImageOp(logoUrl, 15.0, 15.0, 50.0, 30.0) in Layout(d, logoUrl, tableEnd) <==> logoUrl != ""
  {
    var logo := ImageOp(logoUrl, 15.0, 15.0, 50.0, 30.0);
    if logo in Layout(d, logoUrl, tableEnd) {
      ImageIsLogo(d, logoUrl, tableEnd, logo);
    }
    if logoUrl != "" {
      assert logo in HeaderOps(logoUrl);
      HeaderInLayout(d, logoUrl, tableEnd, logo);
    }
  }

  /** Without a logo no image is drawn at all. */
  lemma NoLogoNoImage(d: InvoiceData, tableEnd: real)
    ensures forall op :: op in Layout(d, "", tableEnd) ==> !op.ImageOp?
  {
    forall op | op in Layout(d, "", tableEnd) && op.ImageOp?
      ensures false
    {
      ImageIsLogo(d, "", tableEnd, op);
    }
  }

  /** The PO number row appears exactly when there is a PO number. */
  lemma PoRegion(d: InvoiceData, logoUrl: string, tableEnd: real)
    ensures TextOp("PO Number", 150.0, 80.0, Left, Label) in Layout(d, logoUrl, tableEnd) <==> d.poNumber != ""
  {
    var op := TextOp("PO Number", 150.0, 80.0, Left, Label);
    var finalY := tableEnd + 10.0;
    if op in Layout(d, logoUrl, tableEnd) {
      LayoutParts(d, logoUrl, tableEnd, op);
      if op in MetaOps(d) {
        MetaAtEighty(d, op);
      } else if op in LowerOps(d, finalY) {
        LowerLabels(d, finalY, op);
      }
    }
    if d.poNumber != "" {
      assert op in PoOps(d.poNumber);
      assert op in MetaOps(d);
      MetaInLayout(d, logoUrl, tableEnd, op);
    }
  }

  /** The notes block appears exactly when there are notes. */
  lemma NotesRegion(d: InvoiceData, logoUrl: string, tableEnd: real)
    ensures TextOp("Notes", 15.0, tableEnd + 50.0, Left, Label) in Layout(d, logoUrl, tableEnd) <==> d.notes != ""
  {
    var op := TextOp("Notes", 15.0, tableEnd + 50.0, Left, Label);
    var finalY := tableEnd + 10.0;
    if op in Layout(d, logoUrl, tableEnd) {
      LayoutParts(d, logoUrl, tableEnd, op);
      if op in MetaOps(d) {
        MetaIsText(d, op);
      } else if op in LowerOps(d, finalY) {
        LowerLabels(d, finalY, op);
      }
    }
    if d.notes != "" {
      assert op in NotesOps(d, finalY);
      NotesInLayout(d, logoUrl, tableEnd, op);
    }
  }

  /** The payment terms block appears exactly when there are terms. */
  lemma TermsRegion(d: InvoiceData, logoUrl: string, tableEnd: real)
    ensures TextOp("Payment Terms", 140.0, tableEnd + 50.0, Left, Label) in Layout(d, logoUrl, tableEnd)
        <==> d.terms != ""
  {
    var op := TextOp("Payment Terms", 140.0, tableEnd + 50.0, Left, Label);
    var finalY := tableEnd + 10.0;
    if op in Layout(d, logoUrl, tableEnd) {
      LayoutParts(d, logoUrl, tableEnd, op);
      if op in MetaOps(d) {
        MetaIsText(d, op);
      } else if op in LowerOps(d, finalY) {
        LowerLabels(d, finalY, op);
      }
    }
    if d.terms != "" {
      assert op in NotesOps(d, finalY);
      NotesInLayout(d, logoUrl, tableEnd, op);
    }
  }

  /** The PO number row is inserted after the due date and moves nothing:
      without it the document is the same list of draw calls minus that row. */
  lemma PoNumberDoesNotShift(d: InvoiceData, logoUrl: string, tableEnd: real)
    ensures var base := Layout(d.(poNumber := ""), logoUrl, tableEnd);
            var i := |HeaderOps(logoUrl)| + 6;
      && i <= |base|
      && Layout(d, logoUrl, tableEnd) == base[..i] + PoOps(d.poNumber) + base[i..]
  {
    var d0 := d.(poNumber := "");
    MetaWithoutPo(d);
    LowerWithoutPo(d, tableEnd + 10.0);
    InsertAfter(HeaderOps(logoUrl), MetaOps(d0), PoOps(d.poNumber), LowerOps(d, tableEnd + 10.0));
  }

  lemma MetaWithoutPo(d: InvoiceData)
    ensures MetaOps(d) == MetaOps(d.(poNumber := "")) + PoOps(d.poNumber)
    ensures |MetaOps(d.(poNumber := ""))| == 6
  {
  }

  lemma LowerWithoutPo(d: InvoiceData, finalY: real)
    ensures LowerOps(d.(poNumber := ""), finalY) == LowerOps(d, finalY)
  {
  }

  /** Sequence algebra: inserting `p` between `m` and `rest`. */
  lemma InsertAfter<T>(h: seq<T>, m: seq<T>, p: seq<T>, rest: seq<T>)
    ensures var base := h + m + rest;
      h + (m + p) + rest == base[..|h| + |m|] + p + base[|h| + |m|..]
  {
    var base := h + m + rest;
    assert base[..|h| + |m|] == h + m;
    assert base[|h| + |m|..] == rest;
  }

  /** Notes and payment terms are inserted just before the totals and move
      nothing: the totals keep their place below the table either way. */
  lemma NotesDoNotShift(d: InvoiceData, logoUrl: string, tableEnd: real)
    ensures var base := Layout(d.(notes := "", terms := ""), logoUrl, tableEnd);
            var j := |base| - 4;
      && 0 <= j
      && Layout(d, logoUrl, tableEnd) == base[..j] + NotesOps(d, tableEnd + 10.0) + base[j..]
  {
    var d0 := d.(notes := "", terms := "");
    var finalY := tableEnd + 10.0;
    var upper := HeaderOps(logoUrl) + MetaOps(d);
    var S, R, T := SenderOps(d), RecipientOps(d), TableOps(d);
    var N, F := NotesOps(d, finalY), TotalsOps(d, finalY);
    assert upper == HeaderOps(logoUrl) + MetaOps(d0);
    assert S == SenderOps(d0) && R == RecipientOps(d0) && T == TableOps(d0);
    assert NotesOps(d0, finalY) == [] && TotalsOps(d0, finalY) == F;
    Regroup(upper, S, R, T, N, F);
    Regroup(upper, S, R, T, [], F);
    var top := upper + S + R + T;
    assert top + [] == top;
    InsertBefore(top, N, F);
  }

  /** Sequence algebra: inserting `n` between `top` and `f`. */
  lemma InsertBefore<T>(top: seq<T>, n: seq<T>, f: seq<T>)
    ensures var base := top + f;
      top + n + f == base[..|top|] + n + base[|top|..]
  {
    var base := top + f;
    assert base[..|top|] == top;
    assert base[|top|..] == f;
  }

  /** The invoice number is recovered from the file name, so distinct
      invoice numbers give distinct file names. */
  lemma FileNameRoundTrip(invoiceNumber: string)
    ensures var f := FileName(invoiceNumber);
      && |f| == |invoiceNumber| + 12
      && f[..8] == "invoice-" && f[|f| - 4..] == ".pdf"
      && f[8..|f| - 4] == invoiceNumber
  {
  }

  /** Twenty-five euros in cents prints as "25.00". */
  lemma FormatTwentyFive()
    ensures FormatCents(2500) == "25.00"
  {
    assert NatToDigits(2) == "2";
    assert NatToDigits(25) == NatToDigits(2) + [DigitChar(5)];
    assert NatToDigits(25) == "25";
    assert DigitChar(0) == '0';
  }

  /** The items of the worked example add up to 25.00 in cents. */
  lemma ExampleItemsTotal()
    ensures Total([LineItem("A", 2, 1000), LineItem("B", 1, 500)]) == 2500
  {
    var a, b := LineItem("A", 2, 1000), LineItem("B", 1, 500);
    TotalConcat([a], [b]);
    TotalSingle(a);
    TotalSingle(b);
    assert [a, b] == [a] + [b];
  }

  /** Twenty-five euros print as "€25.00". */
  lemma EuroMoney()
    ensures Money("€", 2500) == "€25.00"
  {
    FormatTwentyFive();
  }

  /** The worked example: two euro items of 2 × 10.00 and 1 × 5.00 total
      "€25.00". */
  lemma EuroTotalExample()
    ensures Money(GetCurrencySymbol("EUR"), Total([LineItem("A", 2, 1000), LineItem("B", 1, 500)]))
         == "€25.00"
  {
    ExampleItemsTotal();
    EuroSymbol();
    EuroMoney();
  }
}
