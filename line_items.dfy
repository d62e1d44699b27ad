/** The invoice's ordered collection of billable rows and its total.
    Each operation here is the value the form's state setter receives:
    the list after appending, after `splice(index, 1)`, after editing one
    field of one row. Money is kept as integer cents. */
module LineItems {

  /** One billable row. `rate` is in cents; the amount is derived. */
  datatype LineItem = LineItem(description: string, quantity: int, rate: int)

  /** The row a fresh invoice starts with and that "Add Item" appends. */
  const Blank: LineItem := LineItem("", 0, 0)

  /** quantity × rate, in cents. */
  function Amount(item: LineItem): int {
    item.quantity * item.rate
  }

  /** The list after "Add Item": one blank row at the end. */
  function Appended(items: seq<LineItem>): (r: seq<LineItem>)
    ensures |r| == |items| + 1
    ensures r[..|items|] == items && r[|items|] == Blank
  {
    items + [Blank]
  }

  /** The position `splice(index, 1)` starts from on a list of length
      `len`: a negative index counts from the end, and both directions are
      clamped to the list. */
  function SpliceStart(len: nat, index: int): (k: nat)
    ensures k <= len
    ensures 0 <= index <= len ==> k == index
    ensures -(len as int) <= index < 0 ==> k == len + index
    ensures index > len as int ==> k == len
    ensures index < -(len as int) ==> k == 0
  {
    if index < 0 then (if len + index < 0 then 0 else len + index)
    else if index > len then len
    else index
  }

  /** The list after `splice(index, 1)` on a copy of `items`. */
  function Spliced(items: seq<LineItem>, index: int): (r: seq<LineItem>)
    ensures |items| <= index ==> r == items
    ensures |r| == if items == [] || index >= |items| then |items| else |items| - 1
  {
    var k := SpliceStart(|items|, index);
    if k < |items| then items[..k] + items[k + 1..] else items
  }

  /** For an index inside the list, splice deletes exactly that row and
      keeps every other row, in order. */
  lemma SplicedRemovesOne(items: seq<LineItem>, index: int)
    requires 0 <= index < |items|
    ensures var r := Spliced(items, index);
      && |r| == |items| - 1
      && (forall j :: 0 <= j < index ==> r[j] == items[j])
      && (forall j :: index <= j < |r| ==> r[j] == items[j + 1])
  {
  }

  /** Removing the row "Add Item" just appended restores the list. */
  lemma SplicedUndoesAppended(items: seq<LineItem>)
    ensures Spliced(Appended(items), |items|) == items
  {
    assert Appended(items)[..|items|] == items;
  }

  /** One field edit, as typed into one input of a row. */
  datatype ItemEdit =
    | SetDescription(description: string)
    | SetQuantity(quantity: int)
    | SetRate(rate: int)

  /** The row with the edited field replaced. */
  function Edited(item: LineItem, e: ItemEdit): (r: LineItem)
    ensures e.SetDescription? ==> r.description == e.description
    ensures e.SetQuantity? ==> r.quantity == e.quantity
    ensures e.SetRate? ==> r.rate == e.rate
    ensures r.description != item.description ==> e.SetDescription?
    ensures r.quantity != item.quantity ==> e.SetQuantity?
    ensures r.rate != item.rate ==> e.SetRate?
  {
    match e
    case SetDescription(d) => item.(description := d)
    case SetQuantity(q) => item.(quantity := q)
    case SetRate(v) => item.(rate := v)
  }

  /** The list after editing one field of row `index`: the length, the
      order and every other row stay as they were. */
  function EditAt(items: seq<LineItem>, index: nat, e: ItemEdit): (r: seq<LineItem>)
    requires index < |items|
    ensures |r| == |items|
    ensures r[index] == Edited(items[index], e)
    ensures forall j :: 0 <= j < |items| && j != index ==> r[j] == items[j]
  {
    items[index := Edited(items[index], e)]
  }

  /** `items.reduce((total, item) => total + item.quantity * item.rate, 0)`:
      a left fold over the rows. */
  function Total(items: seq<LineItem>): (t: int)
    ensures items == [] ==> t == 0
    ensures (forall i :: 0 <= i < |items| ==> items[i].quantity >= 0 && items[i].rate >= 0) ==> t >= 0
  {
    if items == [] then 0
    else Total(items[..|items| - 1]) + Amount(items[|items| - 1])
  }

  /** Σ quantity × rate written as a sum from the first row on, the
      reference Total is checked against. */
  function SumOfAmounts(items: seq<LineItem>): int {
    if items == [] then 0 else Amount(items[0]) + SumOfAmounts(items[1..])
  }

  /** The total of two lists laid end to end is the sum of their totals. */
  lemma {:induction false} TotalConcat(a: seq<LineItem>, b: seq<LineItem>)
    ensures Total(a + b) == Total(a) + Total(b)
  {
    if b == [] {
      assert a + b == a;
    } else {
      var b' := b[..|b| - 1];
      TotalConcat(a, b');
      assert (a + b)[..|a + b| - 1] == a + b';
    }
  }

  /** The total of a one-row list is that row's amount. */
  lemma TotalSingle(item: LineItem)
    ensures Total([item]) == Amount(item)
  {
    assert [item][..0] == [];
  }

  /** Appending a blank row leaves the total unchanged. */
  lemma TotalAppended(items: seq<LineItem>)
    ensures Total(Appended(items)) == Total(items)
  {
    TotalConcat(items, [Blank]);
    TotalSingle(Blank);
  }

  /** The total split around row `index`. */
  lemma TotalAround(items: seq<LineItem>, index: nat)
    requires index < |items|
    ensures Total(items) == Total(items[..index]) + Amount(items[index]) + Total(items[index + 1..])
  {
    var pre, post := items[..index], items[index + 1..];
    assert items == pre + [items[index]] + post;
    TotalConcat(pre + [items[index]], post);
    TotalConcat(pre, [items[index]]);
    TotalSingle(items[index]);
  }

  /** Removing row `index` takes exactly its amount off the total. */
  lemma TotalSpliced(items: seq<LineItem>, index: int)
    requires 0 <= index < |items|
    ensures Total(Spliced(items, index)) == Total(items) - Amount(items[index])
  {
    TotalAround(items, index);
    TotalConcat(items[..index], items[index + 1..]);
  }

  /** Editing row `index` changes the total by exactly the change in that
      row's amount; a description edit leaves it unchanged. */
  lemma TotalEditAt(items: seq<LineItem>, index: nat, e: ItemEdit)
    requires index < |items|
    ensures Total(EditAt(items, index, e))
         == Total(items) - Amount(items[index]) + Amount(Edited(items[index], e))
    ensures e.SetDescription? ==> Total(EditAt(items, index, e)) == Total(items)
  {
    var r := EditAt(items, index, e);
    TotalAround(items, index);
    TotalAround(r, index);
    assert r[..index] == items[..index];
    assert r[index + 1..] == items[index + 1..];
  }

  /** The left-to-right reduce computes Σ quantity × rate. */
  lemma {:induction false} TotalIsSum(items: seq<LineItem>)
    ensures Total(items) == SumOfAmounts(items)
  {
    if items != [] {
      TotalIsSum(items[1..]);
      TotalConcat([items[0]], items[1..]);
      TotalSingle(items[0]);
      assert [items[0]] + items[1..] == items;
    }
  }
}
