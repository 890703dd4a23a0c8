/** The CSV printer of query results and the CSV line parser of project seeds. */
module Csv {
  import opened Prelude

  /** Which characters trimming removes. */
  type Blank = char -> bool

  // ---- Printing ----------------------------------------------------------------------------------------

  /** Every quote doubled. */
  function Doubled(s: string): string {
    if s == [] then [] else (if s[0] == '"' then ['"', '"'] else [s[0]]) + Doubled(s[1..])
  }

  predicate NeedsQuotes(s: string) { ',' in s || '\n' in s || '\r' in s || '"' in s }

  /** `escape_csv_cell` */
  function Escape(s: string): string {
    if NeedsQuotes(s) then ['"'] + Doubled(s) + ['"'] else s
  }

  /** One printed row, without its line end. */
  function RowText(cells: seq<string>): string {
    if cells == [] then []
    else if |cells| == 1 then Escape(cells[0])
    else Escape(cells[0]) + [','] + RowText(cells[1..])
  }

  // ---- Trimming ----------------------------------------------------------------------------------------

  function TrimLeft(s: string, blank: Blank): (r: string)
    ensures |r| <= |s|
  {
    if s != [] && blank(s[0]) then TrimLeft(s[1..], blank) else s
  }

  function TrimRight(s: string, blank: Blank): (r: string)
    ensures |r| <= |s|
  {
    if s != [] && blank(s[|s| - 1]) then TrimRight(s[..|s| - 1], blank) else s
  }

  function Trim(s: string, blank: Blank): string { TrimRight(TrimLeft(s, blank), blank) }

  lemma {:induction false} TrimLeftCuts(s: string, blank: Blank) returns (i: nat)
    ensures i <= |s| && TrimLeft(s, blank) == s[i..] && (forall k :: 0 <= k < i ==> blank(s[k]))
    ensures i < |s| ==> !blank(s[i])
  {
    if s != [] && blank(s[0]) {
      var j := TrimLeftCuts(s[1..], blank);
      i := j + 1;
      forall k | 0 <= k < i ensures blank(s[k]) { if k > 0 { assert s[k] == s[1..][k - 1]; } }
    } else {
      i := 0;
    }
  }

  lemma {:induction false} TrimRightCuts(s: string, blank: Blank) returns (j: nat)
    ensures j <= |s| && TrimRight(s, blank) == s[..j] && (forall k :: j <= k < |s| ==> blank(s[k]))
    ensures j > 0 ==> !blank(s[j - 1])
  {
    if s != [] && blank(s[|s| - 1]) {
      j := TrimRightCuts(s[..|s| - 1], blank);
    } else {
      j := |s|;
    }
  }

  /** Trimming takes off exactly the blanks at both ends. */
  lemma TrimIsExact(s: string, blank: Blank) returns (i: nat, j: nat)
    ensures i <= j <= |s| && Trim(s, blank) == s[i..j]
    ensures (forall k :: 0 <= k < i ==> blank(s[k])) && (forall k :: j <= k < |s| ==> blank(s[k]))
    ensures i < j ==> !blank(s[i]) && !blank(s[j - 1])
  {
    i := TrimLeftCuts(s, blank);
    var rest := s[i..];
    var n := TrimRightCuts(rest, blank);
    j := i + n;
    assert rest[..n] == s[i..j];
    forall k | j <= k < |s| ensures blank(s[k]) { assert s[k] == rest[k - i]; }
    if i < j { assert s[j - 1] == rest[n - 1]; }
  }

  /** A cell is quoted exactly when it has to be. */
  lemma PrintedAsItIsIff(s: string)
    ensures Escape(s) == s <==> ',' !in s && '"' !in s && '\n' !in s && '\r' !in s
    ensures Escape(s) != s ==> Escape(s)[0] == Escape(s)[|Escape(s)| - 1] == '"' && |Escape(s)| >= |s| + 2
  {
    DoubledIsLonger(s);
  }

  lemma {:induction false} DoubledIsLonger(s: string)
    ensures |Doubled(s)| >= |s|
  {
    if s != [] { DoubledIsLonger(s[1..]); }
  }

  // ---- Parsing -----------------------------------------------------------------------------------------

  /** The fields of the rest of a line, given whether it starts inside quotes and the text of the field so far. */
  function Fields(rest: string, inQuotes: bool, current: string, blank: Blank): (fields: seq<string>)
    ensures fields != []
    decreases |rest|
  {
    if rest == [] then [Trim(current, blank)]
    else if rest[0] == '"' then
      if inQuotes && |rest| > 1 && rest[1] == '"' then Fields(rest[2..], inQuotes, current + ['"'], blank)
      else Fields(rest[1..], !inQuotes, current, blank)
    else if rest[0] == ',' && !inQuotes then [Trim(current, blank)] + Fields(rest[1..], inQuotes, [], blank)
    else Fields(rest[1..], inQuotes, current + [rest[0]], blank)
  }

  function ParseLine(line: string, blank: Blank): seq<string> { Fields(line, false, [], blank) }

  function Quotes(s: string): nat {
    if s == [] then 0 else Quotes(s[..|s| - 1]) + if s[|s| - 1] == '"' then 1 else 0
  }

  /** The commas of a line that stand outside quotes: an even number of quotes precedes them. */
  function Separators(line: string): nat {
    if line == [] then 0
    else
      Separators(line[..|line| - 1])
      + if line[|line| - 1] == ',' && Quotes(line[..|line| - 1]) % 2 == 0 then 1 else 0
  }

  lemma CountNext(line: string, i: nat)
    requires i < |line|
    ensures Quotes(line[..i + 1]) == Quotes(line[..i]) + if line[i] == '"' then 1 else 0
    ensures Separators(line[..i + 1]) ==
              Separators(line[..i]) + if line[i] == ',' && Quotes(line[..i]) % 2 == 0 then 1 else 0
  {
    assert line[..i + 1][..i] == line[..i];
  }

  lemma {:induction false} FieldsFrom(line: string, i: nat, inQuotes: bool, current: string, blank: Blank)
    requires i <= |line| && inQuotes == (Quotes(line[..i]) % 2 == 1)
    ensures |Fields(line[i..], inQuotes, current, blank)| == 1 + Separators(line) - Separators(line[..i])
    decreases |line| - i
  {
    var rest := line[i..];
    if i == |line| {
      assert line[..i] == line;
    } else {
      CountNext(line, i);
      assert rest[1..] == line[i + 1..];
      if rest[0] == '"' {
        if inQuotes && |rest| > 1 && rest[1] == '"' {
          CountNext(line, i + 1);
          assert rest[2..] == line[i + 2..];
          FieldsFrom(line, i + 2, inQuotes, current + ['"'], blank);
        } else {
          FieldsFrom(line, i + 1, !inQuotes, current, blank);
        }
      } else if rest[0] == ',' && !inQuotes {
        FieldsFrom(line, i + 1, inQuotes, [], blank);
      } else {
        FieldsFrom(line, i + 1, inQuotes, current + [rest[0]], blank);
      }
    }
  }

  /** Every line, printed by the program or not, has one field more than it has commas outside quotes, wherever its
      quotes stand. */
  lemma FieldCount(line: string, blank: Blank)
    ensures |ParseLine(line, blank)| == 1 + Separators(line)
  {
    assert line[0..] == line && line[..0] == [];
    FieldsFrom(line, 0, false, [], blank);
  }

  /** `parse_csv_line` */
  method ParseCsvLine(line: string, blank: Blank) returns (fields: seq<string>)
    ensures fields == ParseLine(line, blank)
  {
    fields := [];
    var current, inQuotes, i := [], false, 0;
    while i < |line|
      invariant 0 <= i <= |line|
      invariant fields + Fields(line[i..], inQuotes, current, blank) == ParseLine(line, blank)
    {
      var c := line[i];
      assert line[i..][1..] == line[i + 1..];
      if c == '"' {
        if inQuotes && i + 1 < |line| && line[i + 1] == '"' {
          assert line[i..][2..] == line[i + 2..];
          current := current + ['"'];
          i := i + 1;
        } else {
          inQuotes := !inQuotes;
        }
      } else if c == ',' && !inQuotes {
        fields := fields + [Trim(current, blank)];
        current := [];
      } else {
        current := current + [c];
      }
      i := i + 1;
    }
    fields := fields + [Trim(current, blank)];
  }

  // ---- Round trip --------------------------------------------------------------------------------------

  lemma ReadPlain(c: char, tail: string, inQuotes: bool, current: string, blank: Blank)
    requires c != '"' && (c != ',' || inQuotes)
    ensures Fields([c] + tail, inQuotes, current, blank) == Fields(tail, inQuotes, current + [c], blank)
  {
    assert ([c] + tail)[1..] == tail;
  }

  lemma ReadDoubled(tail: string, current: string, blank: Blank)
    ensures Fields(['"', '"'] + tail, true, current, blank) == Fields(tail, true, current + ['"'], blank)
  {
    assert (['"', '"'] + tail)[2..] == tail;
  }

  lemma ReadQuote(tail: string, inQuotes: bool, current: string, blank: Blank)
    requires !(inQuotes && tail != [] && tail[0] == '"')
    ensures Fields(['"'] + tail, inQuotes, current, blank) == Fields(tail, !inQuotes, current, blank)
  {
    assert (['"'] + tail)[1..] == tail;
  }

  lemma ReadComma(tail: string, current: string, blank: Blank)
    ensures Fields([','] + tail, false, current, blank) == [Trim(current, blank)] + Fields(tail, false, [], blank)
  {
    assert ([','] + tail)[1..] == tail;
  }

  /** A cell printed without quotes is read character by character. */
  lemma {:induction false} PlainRun(s: string, rest: string, current: string, blank: Blank)
    requires ',' !in s && '"' !in s
    ensures Fields(s + rest, false, current, blank) == Fields(rest, false, current + s, blank)
  {
    if s == [] {
      assert s + rest == rest && current + s == current;
    } else {
      assert s == [s[0]] + s[1..];
      Assoc([s[0]], s[1..], rest);
      ReadPlain(s[0], s[1..] + rest, false, current, blank);
      PlainRun(s[1..], rest, current + [s[0]], blank);
      Assoc(current, [s[0]], s[1..]);
    }
  }

  /** Inside quotes, doubled text is read back up to the closing quote. */
  lemma {:induction false} QuotedRun(s: string, rest: string, current: string, blank: Blank)
    requires rest == [] || rest[0] != '"'
    ensures Fields(Doubled(s) + (['"'] + rest), true, current, blank) == Fields(rest, false, current + s, blank)
  {
    var tail := ['"'] + rest;
    if s == [] {
      assert Doubled(s) + tail == tail && current + s == current;
      ReadQuote(rest, true, current, blank);
    } else {
      var more := Doubled(s[1..]) + tail;
      assert s == [s[0]] + s[1..];
      if s[0] == '"' {
        Assoc(['"', '"'], Doubled(s[1..]), tail);
        ReadDoubled(more, current, blank);
      } else {
        Assoc([s[0]], Doubled(s[1..]), tail);
        ReadPlain(s[0], more, true, current, blank);
      }
      QuotedRun(s[1..], rest, current + [s[0]], blank);
      Assoc(current, [s[0]], s[1..]);
    }
  }

  /** One printed cell, at the end of the line or before a comma, is read back into the current field. */
  lemma EscapedRun(s: string, rest: string, blank: Blank)
    requires rest == [] || rest[0] != '"'
    ensures Fields(Escape(s) + rest, false, [], blank) == Fields(rest, false, s, blank)
  {
    assert [] + s == s;
    if NeedsQuotes(s) {
      Assoc(['"'] + Doubled(s), ['"'], rest);
      Assoc(['"'], Doubled(s), ['"'] + rest);
      ReadQuote(Doubled(s) + (['"'] + rest), false, [], blank);
      QuotedRun(s, rest, [], blank);
    } else {
      PlainRun(s, rest, [], blank);
    }
  }

  function TrimAll(cells: seq<string>, blank: Blank): (r: seq<string>)
    ensures |r| == |cells| && forall i :: 0 <= i < |cells| ==> r[i] == Trim(cells[i], blank)
  {
    seq(|cells|, i requires 0 <= i < |cells| => Trim(cells[i], blank))
  }

  /** Parsing a printed row gives the same number of fields, each the trimmed original, whatever quotes, commas and
      line breaks the cells hold. */
  lemma {:induction false} PrintedRowParses(cells: seq<string>, blank: Blank)
    requires cells != []
    ensures ParseLine(RowText(cells), blank) == TrimAll(cells, blank)
  {
    if |cells| == 1 {
      assert Escape(cells[0]) + [] == Escape(cells[0]);
      EscapedRun(cells[0], [], blank);
    } else {
      Assoc(Escape(cells[0]), [','], RowText(cells[1..]));
      EscapedRun(cells[0], [','] + RowText(cells[1..]), blank);
      ReadComma(RowText(cells[1..]), cells[0], blank);
      PrintedRowParses(cells[1..], blank);
      assert TrimAll(cells, blank) == [Trim(cells[0], blank)] + TrimAll(cells[1..], blank);
    }
  }
}
