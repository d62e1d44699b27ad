/** The fixed currency table of the invoice generator and the symbol
    lookup that falls back to the dollar sign for unknown codes. */
module Currencies {
  import opened Wrappers

  datatype Currency = Currency(code: string, symbol: string, name: string)

  /** The ten selectable currencies, in the order the dropdown lists them. */
  const Table: seq<Currency> := [
    Currency("USD", "$", "US Dollar"),
    Currency("EUR", "€", "Euro"),
    Currency("GBP", "£", "British Pound"),
    Currency("JPY", "¥", "Japanese Yen"),
    Currency("CAD", "C$", "Canadian Dollar"),
    Currency("AUD", "A$", "Australian Dollar"),
    Currency("INR", "₹", "Indian Rupee"),
    Currency("CNY", "¥", "Chinese Yuan"),
    Currency("BRL", "R$", "Brazilian Real"),
    Currency("ZAR", "R", "South African Rand")
  ]

  /** Symbol used when the code is not in the table. */
  const DefaultSymbol: string := "$"

  /** Array.prototype.find on the table: the first entry whose code is
      `code`, or nothing when no entry has it. */
  function Find(table: seq<Currency>, code: string): (r: Option<Currency>)
    ensures r.Some? ==> r.value in table && r.value.code == code
    ensures r.None? <==> forall i :: 0 <= i < |table| ==> table[i].code != code
  {
    if table == [] then None
    else if table[0].code == code then Some(table[0])
    else Find(table[1..], code)
  }

  /** What `find` returns is the first entry carrying the code. */
  lemma {:induction false} FindFirst(table: seq<Currency>, code: string)
    ensures var r := Find(table, code);
      r.Some? ==> exists i :: 0 <= i < |table| && table[i] == r.value
                              && forall j :: 0 <= j < i ==> table[j].code != code
  {
    var r := Find(table, code);
    if table != [] && r.Some? {
      if table[0].code == code {
        assert table[0] == r.value;
      } else {
        FindFirst(table[1..], code);
        var i :| 0 <= i < |table[1..]| && table[1..][i] == r.value
                 && forall j :: 0 <= j < i ==> table[1..][j].code != code;
        assert table[i + 1] == r.value;
        forall j | 0 <= j < i + 1
          ensures table[j].code != code
        {
          if j > 0 { assert table[j] == table[1..][j - 1]; }
        }
      }
    }
  }

  /** The symbol of the table entry with this code, or the default. */
  function GetCurrencySymbol(code: string): string
  {
    match Find(Table, code)
    case Some(c) => c.symbol
    case None => DefaultSymbol
  }

  /** No two entries of the table share a code. */
  lemma CodesDistinct()
    ensures forall i, j :: 0 <= i < j < |Table| ==> Table[i].code != Table[j].code
  {
  }

  /** In a table without repeated codes, looking up an entry's code
      finds that entry. */
  lemma {:induction false} FindListed(table: seq<Currency>, i: nat)
    requires i < |table|
    requires forall j, k :: 0 <= j < k < |table| ==> table[j].code != table[k].code
    ensures Find(table, table[i].code) == Some(table[i])
  {
    if i > 0 {
      assert table[0].code != table[i].code;
      FindListed(table[1..], i - 1);
      assert table[1..][i - 1] == table[i];
    }
  }

  /** Every listed code resolves to its own entry's symbol. */
  lemma SymbolOfListed(i: nat)
    requires i < |Table|
    ensures GetCurrencySymbol(Table[i].code) == Table[i].symbol
  {
    CodesDistinct();
    FindListed(Table, i);
  }

  /** Every code outside the table resolves to the default symbol. */
  lemma SymbolOfUnlisted(code: string)
    requires forall i :: 0 <= i < |Table| ==> Table[i].code != code
    ensures GetCurrencySymbol(code) == DefaultSymbol
  {
  }

  /** The lookup always yields a symbol some entry of the table carries
      (the default is the dollar entry's own symbol). */
  lemma SymbolAlwaysFromTable(code: string)
    ensures exists i :: 0 <= i < |Table| && Table[i].symbol == GetCurrencySymbol(code)
  {
    if Find(Table, code).None? {
      assert Table[0].symbol == DefaultSymbol;
    }
  }

  lemma EuroSymbol()
    ensures GetCurrencySymbol("EUR") == "€"
  {
    SymbolOfListed(1);
  }

  lemma UnknownCodeSymbol()
    ensures GetCurrencySymbol("XYZ") == "$"
  {
    forall i | 0 <= i < |Table|
      ensures Table[i].code != "XYZ"
    {
      assert Table[i].code[0] != 'X';
    }
    SymbolOfUnlisted("XYZ");
  }
}
