/** The text key under which a materialized view groups equal rows.  A character stands for one byte of its UTF-8
    form. */
module ViewRowKey {
  import opened Prelude

  /** A 64-bit pattern, as up to sixteen hexadecimal digits. */
  predicate Fits(n: nat, digits: nat) {
    if digits == 0 then n == 0 else Fits(n / 16, digits - 1)
  }

  type Bits = n: nat | Fits(n, 16) witness Zero()

  function Zero(): (n: nat)
    ensures Fits(n, 16)
  {
    ZeroFits(16);
    0
  }

  lemma {:induction false} ZeroFits(digits: nat)
    ensures Fits(0, digits)
  {
    if digits > 0 { ZeroFits(digits - 1); }
  }

  datatype Column = Null | Int64(number: int) | Utf8(text: string) | Boolean(truth: bool) | Float64(bits: Bits)

  type Row = seq<Column>

  function Digit(n: nat): char
    requires n < 16
  {
    "0123456789abcdef"[n]
  }

  function Decimal(n: nat): (r: string) {
    if n < 10 then [Digit(n)] else Decimal(n / 10) + [Digit(n % 10)]
  }

  function Signed(v: int): string { if v < 0 then ['-'] + Decimal(-v) else Decimal(v) }

  function Hex(n: nat, digits: nat): (r: string)
    ensures |r| == digits
  {
    if digits == 0 then [] else Hex(n / 16, digits - 1) + [Digit(n % 16)]
  }

  /** The two characters that tell the kind. */
  function Tag(c: Column): string {
    match c
    case Null => "n"
    case Int64(_) => "i:"
    case Utf8(_) => "s:"
    case Boolean(_) => "b:"
    case Float64(_) => "f:"
  }

  function Value(c: Column): string {
    match c
    case Null => []
    case Int64(v) => Signed(v)
    case Utf8(v) => Decimal(|v|) + ([':'] + v)
    case Boolean(v) => if v then ['1'] else ['0']
    case Float64(bits) => Hex(bits, 16)
  }

  /** serialize_column_value */
  function Serialize(c: Column): string { Tag(c) + Value(c) }

  /** serialize_pk for the whole row: the columns joined by bars. */
  function Key(row: Row): string {
    if row == [] then []
    else if |row| == 1 then Serialize(row[0])
    else Serialize(row[0]) + (['|'] + Key(row[1..]))
  }

  // ---- Numerals --------------------------------------------------------------------------------------

  predicate IsNumeral(c: char) { '0' <= c <= '9' || c == '-' }

  predicate AllNumeral(s: string) { forall i :: 0 <= i < |s| ==> IsNumeral(s[i]) }

  /** What follows a numeral in a key: nothing, or a character that is not part of one. */
  predicate Ends(s: string) { s == [] || !IsNumeral(s[0]) }

  lemma DigitIsNumeral(n: nat)
    requires n < 10
    ensures IsNumeral(Digit(n)) && Digit(n) != '-'
  {
    var digits := "0123456789abcdef";
    assert digits[0] == '0' && digits[1] == '1' && digits[2] == '2' && digits[3] == '3' && digits[4] == '4';
    assert digits[5] == '5' && digits[6] == '6' && digits[7] == '7' && digits[8] == '8' && digits[9] == '9';
  }

  lemma DigitsDiffer(n: nat, m: nat)
    requires n < 16 && m < 16 && Digit(n) == Digit(m)
    ensures n == m
  {
    var digits := "0123456789abcdef";
    assert forall i, j :: 0 <= i < j < 16 ==> digits[i] != digits[j];
  }

  lemma {:induction false} DecimalIsNumeral(n: nat)
    ensures AllNumeral(Decimal(n)) && Decimal(n) != [] && Decimal(n)[0] != '-'
  {
    if n < 10 {
      DigitIsNumeral(n);
    } else {
      DecimalIsNumeral(n / 10);
      DigitIsNumeral(n % 10);
    }
  }

  lemma SnocEqual(a: string, x: char, b: string, y: char)
    requires a + [x] == b + [y]
    ensures a == b && x == y
  {
    assert |a| == |b|;
    assert a == (a + [x])[..|a|] && b == (b + [y])[..|b|];
    assert x == (a + [x])[|a|] && y == (b + [y])[|b|];
  }

  lemma {:induction false} DecimalUnique(n: nat, m: nat)
    requires Decimal(n) == Decimal(m)
    ensures n == m
  {
    DecimalIsNumeral(n / 10);
    DecimalIsNumeral(m / 10);
    if n < 10 && m < 10 {
      DigitsDiffer(n, m);
    } else if n >= 10 && m >= 10 {
      SnocEqual(Decimal(n / 10), Digit(n % 10), Decimal(m / 10), Digit(m % 10));
      DigitsDiffer(n % 10, m % 10);
      DecimalUnique(n / 10, m / 10);
    }
  }

  lemma SignedUnique(v: int, u: int)
    requires Signed(v) == Signed(u)
    ensures v == u
  {
    if v < 0 && u < 0 {
      SplitEqual(['-'], Decimal(-v), ['-'], Decimal(-u));
      DecimalUnique(-v, -u);
    } else if v >= 0 && u >= 0 {
      DecimalUnique(v, u);
    } else {
      DecimalIsNumeral(if v >= 0 then v else u);
    }
  }

  lemma SignedIsNumeral(v: int)
    ensures AllNumeral(Signed(v))
  {
    DecimalIsNumeral(if v < 0 then -v else v);
  }

  lemma {:induction false} HexUnique(n: nat, m: nat, digits: nat)
    requires Fits(n, digits) && Fits(m, digits) && Hex(n, digits) == Hex(m, digits)
    ensures n == m
  {
    if digits > 0 {
      SnocEqual(Hex(n / 16, digits - 1), Digit(n % 16), Hex(m / 16, digits - 1), Digit(m % 16));
      DigitsDiffer(n % 16, m % 16);
      HexUnique(n / 16, m / 16, digits - 1);
    }
  }

  // ---- Reading a key back ------------------------------------------------------------------------------

  /** Equal texts with heads of equal length have equal heads and equal tails. */
  lemma SplitEqual(a: string, x: string, b: string, y: string)
    requires a + x == b + y && |a| == |b|
    ensures a == b && x == y
  {
    assert a == (a + x)[..|a|] && b == (b + y)[..|b|];
    assert x == (a + x)[|a|..] && y == (b + y)[|b|..];
  }

  lemma NumeralNotLonger(a: string, x: string, b: string, y: string)
    requires a + x == b + y && AllNumeral(b) && Ends(x)
    ensures |b| <= |a|
  {
    assert forall i :: 0 <= i < |b| ==> (b + y)[i] == b[i];
    assert x != [] ==> (a + x)[|a|] == x[0];
  }

  lemma NumeralsEqual(a: string, x: string, b: string, y: string)
    requires a + x == b + y && AllNumeral(a) && AllNumeral(b) && Ends(x) && Ends(y)
    ensures a == b && x == y
  {
    NumeralNotLonger(a, x, b, y);
    NumeralNotLonger(b, y, a, x);
    SplitEqual(a, x, b, y);
  }

  /** What follows a column in a key. */
  predicate Rest(s: string) { s == [] || s[0] == '|' }

  lemma Int64Read(v: int, x: string, u: int, y: string)
    requires Signed(v) + x == Signed(u) + y && Rest(x) && Rest(y)
    ensures v == u && x == y
  {
    SignedIsNumeral(v);
    SignedIsNumeral(u);
    NumeralsEqual(Signed(v), x, Signed(u), y);
    SignedUnique(v, u);
  }

  lemma Utf8Read(v: string, x: string, u: string, y: string)
    requires Decimal(|v|) + ([':'] + v) + x == Decimal(|u|) + ([':'] + u) + y
    ensures v == u && x == y
  {
    DecimalIsNumeral(|v|);
    DecimalIsNumeral(|u|);
    Assoc(Decimal(|v|), [':'] + v, x);
    Assoc(Decimal(|u|), [':'] + u, y);
    NumeralsEqual(Decimal(|v|), [':'] + v + x, Decimal(|u|), [':'] + u + y);
    DecimalUnique(|v|, |u|);
    SplitEqual([':'] + v, x, [':'] + u, y);
    SplitEqual([':'], v, [':'], u);
  }

  lemma Float64Read(n: Bits, x: string, m: Bits, y: string)
    requires Hex(n, 16) + x == Hex(m, 16) + y
    ensures n == m && x == y
  {
    SplitEqual(Hex(n, 16), x, Hex(m, 16), y);
    HexUnique(n, m, 16);
  }

  lemma TagsEqual(c: Column, x: string, d: Column, y: string)
    requires Serialize(c) + x == Serialize(d) + y
    ensures Tag(c) == Tag(d) && Value(c) + x == Value(d) + y
  {
    Assoc(Tag(c), Value(c), x);
    Assoc(Tag(d), Value(d), y);
    assert (Tag(c) + (Value(c) + x))[0] == Tag(c)[0] && (Tag(d) + (Value(d) + y))[0] == Tag(d)[0];
    SplitEqual(Tag(c), Value(c) + x, Tag(d), Value(d) + y);
  }

  /** A column can be read off the front of a key in one way only. */
  lemma ColumnRead(c: Column, x: string, d: Column, y: string)
    requires Serialize(c) + x == Serialize(d) + y && Rest(x) && Rest(y)
    ensures c == d && x == y
  {
    TagsEqual(c, x, d, y);
    assert Tag(c)[0] == Tag(d)[0];
    match c {
      case Null =>
        assert [] + x == x && [] + y == y;
      case Int64(v) => Int64Read(v, x, d.number, y);
      case Utf8(v) => Utf8Read(v, x, d.text, y);
      case Boolean(v) => SplitEqual(Value(c), x, Value(d), y);
      case Float64(bits) => Float64Read(bits, x, d.bits, y);
    }
  }

  lemma KeyTail(row: Row) returns (tail: string)
    requires row != []
    ensures Key(row) == Serialize(row[0]) + tail && Rest(tail)
    ensures tail == if |row| == 1 then [] else ['|'] + Key(row[1..])
  {
    tail := if |row| == 1 then [] else ['|'] + Key(row[1..]);
    assert Serialize(row[0]) + [] == Serialize(row[0]);
  }

  /** Two rows have the same key only if they are the same row, whatever bars, colons and digits their texts contain. */
  lemma {:induction false} KeyIsUnique(a: Row, b: Row)
    requires Key(a) == Key(b)
    ensures a == b
    decreases |a|
  {
    if a == [] || b == [] {
      if a != [] { var t := KeyTail(a); }
      if b != [] { var t := KeyTail(b); }
    } else {
      var x := KeyTail(a);
      var y := KeyTail(b);
      ColumnRead(a[0], x, b[0], y);
      assert a == [a[0]] + a[1..] && b == [b[0]] + b[1..];
      if |a| > 1 && |b| > 1 {
        SplitEqual(['|'], Key(a[1..]), ['|'], Key(b[1..]));
        KeyIsUnique(a[1..], b[1..]);
      }
    }
  }
}
