/** Text helpers the invoice layout relies on: splitting free text on a
    separator character (String.prototype.split with a one-character
    separator), and the decimal renderings of numbers used in the PDF
    (Number.prototype.toString for quantities, toFixed(2) for money kept as
    integer cents), each with the parser that undoes it. */
module Strings {
  import opened Wrappers

  const NewLine: char := '\n'

  /** Number of occurrences of `c` in `s`. */
  function Count(s: string, c: char): (n: nat)
    ensures n <= |s|
    ensures n == 0 <==> c !in s
  {
    if s == [] then 0
    else (if s[0] == c then 1 else 0) + Count(s[1..], c)
  }

  /** The pieces of `s` between occurrences of `sep`, in order; like
      `s.split(sep)` it yields one piece more than there are separators,
      and the empty string splits into one empty piece. */
  function Split(s: string, sep: char): (parts: seq<string>)
    ensures |parts| == Count(s, sep) + 1
    ensures forall k :: 0 <= k < |parts| ==> sep !in parts[k]
  {
    if s == [] then [""]
    else
      var rest := Split(s[1..], sep);
      if s[0] == sep then [""] + rest
      else [[s[0]] + rest[0]] + rest[1..]
  }

  /** The pieces glued back together with `sep` between neighbours. */
  function Join(parts: seq<string>, sep: char): string
    requires parts != []
  {
    if |parts| == 1 then parts[0]
    else parts[0] + [sep] + Join(parts[1..], sep)
  }

  /** Joining after a new first piece adds that piece and a separator. */
  lemma JoinCons(p: string, parts: seq<string>, sep: char)
    requires parts != []
    ensures Join([p] + parts, sep) == p + [sep] + Join(parts, sep)
  {
    assert ([p] + parts)[1..] == parts;
  }

  /** Joining after a character is put in front of the first piece puts
      it in front of the whole join. */
  lemma JoinPrependChar(c: char, parts: seq<string>, sep: char)
    requires parts != []
    ensures Join([[c] + parts[0]] + parts[1..], sep) == [c] + Join(parts, sep)
  {
    var q := [[c] + parts[0]] + parts[1..];
    if |parts| > 1 {
      assert q[1..] == parts[1..];
      assert Join(q, sep) == ([c] + parts[0]) + [sep] + Join(parts[1..], sep);
      assert Join(parts, sep) == parts[0] + [sep] + Join(parts[1..], sep);
    }
  }

  /** Joining the pieces of a split gives the original text back. */
  lemma {:induction false} JoinSplit(s: string, sep: char)
    ensures Join(Split(s, sep), sep) == s
  {
    if s != [] {
      var rest := Split(s[1..], sep);
      JoinSplit(s[1..], sep);
      assert [s[0]] + s[1..] == s;
      if s[0] == sep {
        JoinCons("", rest, sep);
      } else {
        JoinPrependChar(s[0], rest, sep);
      }
    }
  }

  /** A text without the separator splits into itself alone. */
  lemma {:induction false} SplitNoSeparator(s: string, sep: char)
    requires sep !in s
    ensures Split(s, sep) == [s]
  {
    if s != [] {
      SplitNoSeparator(s[1..], sep);
      assert [s[0]] + s[1..] == s;
    }
  }

  /** A separator-free prefix followed by the separator is split off as
      the first piece. */
  lemma {:induction false} SplitAfterPiece(a: string, sep: char, t: string)
    requires sep !in a
    ensures Split(a + [sep] + t, sep) == [a] + Split(t, sep)
  {
    var s := a + [sep] + t;
    if a == [] {
      assert s == [sep] + t;
      assert s[1..] == t;
    } else {
      assert s[0] == a[0];
      assert s[1..] == a[1..] + [sep] + t;
      SplitAfterPiece(a[1..], sep, t);
      var rest := Split(s[1..], sep);
      assert rest[0] == a[1..] && rest[1..] == Split(t, sep);
      assert [a[0]] + a[1..] == a;
      assert Split(s, sep) == [[a[0]] + rest[0]] + rest[1..];
    }
  }

  /** Splitting a join of separator-free pieces gives the pieces back. */
  lemma {:induction false} SplitJoin(parts: seq<string>, sep: char)
    requires parts != []
    requires forall k :: 0 <= k < |parts| ==> sep !in parts[k]
    ensures Split(Join(parts, sep), sep) == parts
  {
    if |parts| == 1 {
      SplitNoSeparator(parts[0], sep);
    } else {
      SplitJoin(parts[1..], sep);
      SplitAfterPiece(parts[0], sep, Join(parts[1..], sep));
      assert [parts[0]] + parts[1..] == parts;
    }
  }

  predicate IsDigit(c: char) {
    '0' <= c <= '9'
  }

  predicate AllDigits(s: string) {
    forall i :: 0 <= i < |s| ==> IsDigit(s[i])
  }

  function DigitChar(d: nat): (c: char)
    requires d < 10
    ensures IsDigit(c) && c as int - '0' as int == d
  {
    (d + '0' as int) as char
  }

  /** Decimal digits of `n`, most significant first, no leading zero. */
  function NatToDigits(n: nat): (s: string)
    ensures |s| >= 1 && AllDigits(s)
    ensures |s| > 1 ==> s[0] != '0'
  {
    if n < 10 then [DigitChar(n)]
    else NatToDigits(n / 10) + [DigitChar(n % 10)]
  }

  /** The number a string of decimal digits denotes. */
  function DigitsValue(s: string): nat
    requires AllDigits(s)
  {
    if s == [] then 0
    else DigitsValue(s[..|s| - 1]) * 10 + (s[|s| - 1] as int - '0' as int)
  }

  lemma {:induction false} DigitsRoundTrip(n: nat)
    ensures DigitsValue(NatToDigits(n)) == n
  {
    if n >= 10 {
      DigitsRoundTrip(n / 10);
      var s := NatToDigits(n);
      assert s[..|s| - 1] == NatToDigits(n / 10);
    }
  }

  /** `n.toString()` for an integer `n`: a minus sign for negatives, then
      the digits of the magnitude. */
  function IntToString(n: int): (s: string)
    ensures |s| >= 1
    ensures (s[0] == '-') <==> n < 0
    ensures n >= 0 ==> AllDigits(s)
  {
    (if n < 0 then "-" else "") + NatToDigits(if n < 0 then -n else n)
  }

  /** Reads back an optionally signed run of decimal digits. */
  function ParseInt(s: string): Option<int>
  {
    var neg := |s| > 0 && s[0] == '-';
    var body := if neg then s[1..] else s;
    if body != [] && AllDigits(body) then
      var v: int := DigitsValue(body);
      Some(if neg then -v else v)
    else None
  }

  lemma ParseIntToString(n: int)
    ensures ParseInt(IntToString(n)) == Some(n)
  {
    var m := if n < 0 then -n else n;
    DigitsRoundTrip(m);
    if n < 0 {
      assert IntToString(n)[1..] == NatToDigits(m);
    } else {
      assert IntToString(n) == NatToDigits(m);
    }
  }

  /** The unsigned text of `m` cents: the whole units, a point and
      exactly two digits. */
  function CentsDigits(m: nat): (s: string)
    ensures |s| >= 4 && s[|s| - 3] == '.' && s[0] != '-'
    ensures AllDigits(s[|s| - 2..])
  {
    NatToDigits(m / 100) + "." + [DigitChar(m % 100 / 10), DigitChar(m % 10)]
  }

  /** `(c / 100).toFixed(2)` for an amount of `c` cents: a minus sign for
      negatives, then the text of the magnitude. */
  function FormatCents(c: int): (s: string)
    ensures |s| >= 4 && s[|s| - 3] == '.'
    ensures AllDigits(s[|s| - 2..])
    ensures (s[0] == '-') <==> c < 0
  {
    (if c < 0 then "-" else "") + CentsDigits(if c < 0 then -c else c)
  }

  /** Reads back unsigned text of the shape FormatCents produces, as cents. */
  function ParseUnsignedCents(body: string): Option<nat>
  {
    if |body| >= 4 && body[|body| - 3] == '.'
       && AllDigits(body[..|body| - 3]) && AllDigits(body[|body| - 2..])
    then Some(DigitsValue(body[..|body| - 3]) * 100 + DigitsValue(body[|body| - 2..]))
    else None
  }

  /** Reads back text of the shape FormatCents produces, as cents. */
  function ParseCents(s: string): Option<int>
  {
    var neg := |s| > 0 && s[0] == '-';
    match ParseUnsignedCents(if neg then s[1..] else s)
    case None => None
    case Some(v) => var n: int := v; Some(if neg then -n else n)
  }

  lemma TwoDigitsValue(r: nat)
    requires r < 100
    ensures DigitsValue([DigitChar(r / 10), DigitChar(r % 10)]) == r
  {
    var frac := [DigitChar(r / 10), DigitChar(r % 10)];
    assert frac[..1] == [DigitChar(r / 10)];
    assert frac[..1][..0] == [];
    assert DigitsValue(frac[..1]) == r / 10;
    assert DigitsValue(frac) == DigitsValue(frac[..1]) * 10 + r % 10;
  }

  /** Parsing text laid out as whole digits, point, two digits. */
  lemma ParseUnsignedShape(whole: string, frac: string)
    requires |whole| >= 1 && AllDigits(whole) && |frac| == 2 && AllDigits(frac)
    ensures ParseUnsignedCents(whole + "." + frac) == Some(DigitsValue(whole) * 100 + DigitsValue(frac))
  {
    var body := whole + "." + frac;
    assert body[..|body| - 3] == whole;
    assert body[|body| - 2..] == frac;
  }

  /** The unsigned text of an amount reads back as that amount. */
  lemma ParseCentsDigits(m: nat)
    ensures ParseUnsignedCents(CentsDigits(m)) == Some(m)
  {
    var r := m % 100;
    DigitsRoundTrip(m / 100);
    TwoDigitsValue(r);
    assert r % 10 == m % 10;
    ParseUnsignedShape(NatToDigits(m / 100), [DigitChar(r / 10), DigitChar(r % 10)]);
  }

  /** Formatting loses nothing: every amount is recovered from its text. */
  lemma ParseFormatCents(c: int)
    ensures ParseCents(FormatCents(c)) == Some(c)
  {
    var m: nat := if c < 0 then -c else c;
    ParseCentsDigits(m);
    if c < 0 {
      assert FormatCents(c)[1..] == CentsDigits(m);
    } else {
      assert FormatCents(c) == CentsDigits(m);
    }
  }
}
