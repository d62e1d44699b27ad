/** The invoice form's state: the record the generator view holds and the
    setters its inputs call. As in the view, every change replaces the
    whole record with an updated copy. */
module Form {
  import opened LineItems
  import Currencies

  datatype InvoiceData = InvoiceData(
    from: string,
    to: string,
    items: seq<LineItem>,
    notes: string,
    terms: string,
    currency: string,
    invoiceNumber: string,
    date: string,
    dueDate: string,
    poNumber: string)

  /** The record a fresh generator view starts from. The two dates come
      from the clock (today and thirty days on) and are taken as inputs. */
  function InitialData(today: string, dueDay: string): (d: InvoiceData)
    ensures d.items == [Blank]
    ensures d.currency == Currencies.Table[0].code
    ensures d.invoiceNumber == "1"
    ensures d.from == d.to == d.notes == d.terms == d.poNumber == ""
    ensures d.date == today && d.dueDate == dueDay
  {
    InvoiceData("", "", [Blank], "", "", "USD", "1", today, dueDay, "")
  }

  /** The plain text inputs of the form, each bound to one field. */
  datatype TextField = From | To | Notes | Terms | InvoiceNumber | Date | DueDate | PoNumber

  /** The record with one text field replaced. */
  function WithText(d: InvoiceData, f: TextField, value: string): (r: InvoiceData)
    ensures r.items == d.items && r.currency == d.currency
    ensures f == From ==> r == d.(from := value)
    ensures f == To ==> r == d.(to := value)
    ensures f == Notes ==> r == d.(notes := value)
    ensures f == Terms ==> r == d.(terms := value)
    ensures f == InvoiceNumber ==> r == d.(invoiceNumber := value)
    ensures f == Date ==> r == d.(date := value)
    ensures f == DueDate ==> r == d.(dueDate := value)
    ensures f == PoNumber ==> r == d.(poNumber := value)
  {
    match f
    case From => d.(from := value)
    case To => d.(to := value)
    case Notes => d.(notes := value)
    case Terms => d.(terms := value)
    case InvoiceNumber => d.(invoiceNumber := value)
    case Date => d.(date := value)
    case DueDate => d.(dueDate := value)
    case PoNumber => d.(poNumber := value)
  }

  /** The record's currency is one of the table's codes. */
  predicate CurrencyListed(d: InvoiceData) {
    exists i :: 0 <= i < |Currencies.Table| && Currencies.Table[i].code == d.currency
  }

  /** For a listed currency the lookup finds its entry: the symbol shown
      is that entry's own, and the dollar fallback is never used. */
  lemma ListedCurrencySymbol(d: InvoiceData)
    requires CurrencyListed(d)
    ensures Currencies.Find(Currencies.Table, d.currency).Some?
    ensures exists i :: 0 <= i < |Currencies.Table| && Currencies.Table[i].code == d.currency
                        && Currencies.GetCurrencySymbol(d.currency) == Currencies.Table[i].symbol
  {
    var i :| 0 <= i < |Currencies.Table| && Currencies.Table[i].code == d.currency;
    Currencies.SymbolOfListed(i);
  }

  /** Whether the remove button is rendered on each row. */
  predicate RemoveControlShown(d: InvoiceData) {
    |d.items| > 1
  }

  /** Removing through the rendered control never empties the list. */
  lemma RemoveKeepsOneItem(d: InvoiceData, index: int)
    requires RemoveControlShown(d) && 0 <= index < |d.items|
    ensures |Spliced(d.items, index)| == |d.items| - 1 >= 1
  {
  }

  /** The state the generator view owns. */
  class InvoiceForm {
    var data: InvoiceData

    /** At least one line item is always present, and the currency is
        always one the dropdown offers. */
    ghost predicate Valid()
      reads this
    {
      |data.items| >= 1 && CurrencyListed(data)
    }

    constructor (today: string, dueDay: string)
      ensures Valid()
      ensures data == InitialData(today, dueDay)
    {
      data := InitialData(today, dueDay);
      new;
      assert Currencies.Table[0].code == data.currency;
    }

    /** "Add Item". */
    method AddItem()
      requires Valid()
      modifies this
      ensures Valid()
      ensures data == old(data).(items := Appended(old(data.items)))
    {
      data := data.(items := Appended(data.items));
    }

    /** The remove button of row `index`; it is only rendered while more
        than one row exists. */
    method RemoveItem(index: int)
      requires Valid() && RemoveControlShown(data) && 0 <= index < |data.items|
      modifies this
      ensures Valid()
      ensures data == old(data).(items := Spliced(old(data.items), index))
      ensures |data.items| == |old(data.items)| - 1
    {
      RemoveKeepsOneItem(data, index);
      data := data.(items := Spliced(data.items, index));
    }

    /** Typing into the description, quantity or rate input of row `index`. */
    method EditItem(index: nat, e: ItemEdit)
      requires Valid() && index < |data.items|
      modifies this
      ensures Valid()
      ensures data == old(data).(items := EditAt(old(data.items), index, e))
    {
      data := data.(items := EditAt(data.items, index, e));
    }

    /** Picking entry `i` of the currency dropdown. */
    method SelectCurrency(i: nat)
      requires Valid() && i < |Currencies.Table|
      modifies this
      ensures Valid()
      ensures data == old(data).(currency := Currencies.Table[i].code)
    {
      data := data.(currency := Currencies.Table[i].code);
      assert Currencies.Table[i].code == data.currency;
    }

    /** Typing into one of the text inputs. */
    method SetText(f: TextField, value: string)
      requires Valid()
      modifies this
      ensures Valid()
      ensures data == WithText(old(data), f, value)
    {
      data := WithText(data, f, value);
    }
  }
}
