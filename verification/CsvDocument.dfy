/** A printed query result as a whole, and a seed file as a whole. */
module CsvDocument {
  import opened Prelude
  import opened Csv
  import opened CsvSeed

  /** A NULL cell prints like an empty one. */
  function CellText(cell: Option<string>): string { if cell.Some? then cell.value else [] }

  function Texts(row: seq<Option<string>>): (r: seq<string>)
    ensures |r| == |row|
  {
    seq(|row|, i requires 0 <= i < |row| => CellText(row[i]))
  }

  function Body(rows: seq<seq<Option<string>>>): string {
    if rows == [] then [] else Body(rows[..|rows| - 1]) + (RowText(Texts(rows[|rows| - 1])) + ['\n'])
  }

  /** `format_csv` without the timing line */
  method FormatCsv(columns: seq<string>, rows: seq<seq<Option<string>>>) returns (out: string)
    ensures out == RowText(columns) + ['\n'] + Body(rows)
  {
    out := RowText(columns) + ['\n'];
    ghost var header := out;
    for i := 0 to |rows|
      invariant out == header + Body(rows[..i])
    {
      assert rows[..i + 1][..i] == rows[..i];
      Assoc(header, Body(rows[..i]), RowText(Texts(rows[i])) + ['\n']);
      out := out + (RowText(Texts(rows[i])) + ['\n']);
    }
    assert rows[..|rows|] == rows;
  }

  // ---- Reading a seed file ----------------------------------------------------------------------------

  function Commas(s: string): nat {
    if s == [] then 0 else (if s[0] == ',' then 1 else 0) + Commas(s[1..])
  }

  /** How many columns a header declares: it is split at every comma, quoted or not. */
  function HeaderWidth(header: string): nat { Commas(header) + 1 }

  predicate HasHeader(lines: seq<string>, blank: Blank) { lines != [] && Trim(lines[0], blank) != [] }

  /** `ingest_csv_seed`: a text without a header inserts nothing. */
  method IngestSeed(text: string, blank: Blank, accepts: nat -> bool)
    returns (batches: seq<seq<Row>>, error: Option<IngestError>)
    ensures var lines := Lines(text, []);
            if HasHeader(lines, blank)
            then Ingested(RowsOf(lines[1..], blank), HeaderWidth(Trim(lines[0], blank)), accepts, batches, error)
            else batches == [] && error == None
  {
    var lines := Lines(text, []);
    if !HasHeader(lines, blank) {
      return [], None;
    }
    batches, error := IngestRows(lines[1..], HeaderWidth(Trim(lines[0], blank)), blank, accepts);
  }

  // ---- Printing and reading back -----------------------------------------------------------------------

  lemma {:induction false} CommasConcat(a: string, b: string)
    ensures Commas(a + b) == Commas(a) + Commas(b)
  {
    if a == [] {
      assert a + b == b;
    } else {
      assert (a + b)[1..] == a[1..] + b;
      CommasConcat(a[1..], b);
    }
  }

  lemma {:induction false} TrimLeftKeepsCommas(s: string, blank: Blank)
    requires PlainBlanks(blank)
    ensures Commas(TrimLeft(s, blank)) == Commas(s)
  {
    if s != [] && blank(s[0]) { TrimLeftKeepsCommas(s[1..], blank); }
  }

  lemma {:induction false} TrimRightKeepsCommas(s: string, blank: Blank)
    requires PlainBlanks(blank)
    ensures Commas(TrimRight(s, blank)) == Commas(s)
  {
    if s != [] && blank(s[|s| - 1]) {
      var front, last := s[..|s| - 1], s[|s| - 1];
      TrimRightKeepsCommas(front, blank);
      assert s == front + [last] && [last][1..] == [];
      CommasConcat(front, [last]);
    }
  }

  lemma {:induction false} NoCommasIff(s: string)
    ensures Commas(s) == 0 <==> ',' !in s
  {
    if s != [] {
      NoCommasIff(s[1..]);
      assert s == [s[0]] + s[1..];
    }
  }

  lemma {:induction false} DoubledCommas(s: string)
    ensures Commas(Doubled(s)) == Commas(s)
  {
    if s != [] {
      DoubledCommas(s[1..]);
      var head := if s[0] == '"' then ['"', '"'] else [s[0]];
      CommasConcat(head, Doubled(s[1..]));
      if s[0] == '"' { assert head[1..] == ['"'] && ['"'][1..] == []; } else { assert head[1..] == []; }
    }
  }

  lemma EscapedCommas(s: string)
    ensures Commas(Escape(s)) == Commas(s)
  {
    if NeedsQuotes(s) {
      DoubledCommas(s);
      CommasConcat(['"'] + Doubled(s), ['"']);
      CommasConcat(['"'], Doubled(s));
      assert ['"'][1..] == [];
    }
  }

  /** The commas inside the cells. */
  function CommasIn(cells: seq<string>): nat {
    if cells == [] then 0 else Commas(cells[0]) + CommasIn(cells[1..])
  }

  lemma {:induction false} RowCommas(cells: seq<string>)
    requires cells != []
    ensures Commas(RowText(cells)) == |cells| - 1 + CommasIn(cells)
  {
    EscapedCommas(cells[0]);
    if |cells| > 1 {
      var rest := RowText(cells[1..]);
      RowCommas(cells[1..]);
      assert ([','] + rest)[1..] == rest;
      CommasConcat(Escape(cells[0]), [','] + rest);
      Assoc(Escape(cells[0]), [','], rest);
    } else {
      assert cells[1..] == [];
    }
  }

  lemma {:induction false} NoCommasInIff(cells: seq<string>)
    ensures CommasIn(cells) == 0 <==> forall i :: 0 <= i < |cells| ==> ',' !in cells[i]
  {
    if cells != [] {
      NoCommasIff(cells[0]);
      NoCommasInIff(cells[1..]);
      assert forall i :: 1 <= i < |cells| ==> cells[i] == cells[1..][i - 1];
      assert (forall i :: 0 <= i < |cells| ==> ',' !in cells[i]) <==>
               ',' !in cells[0] && forall i :: 0 <= i < |cells[1..]| ==> ',' !in cells[1..][i];
    }
  }

  /** The header declares the right number of columns exactly when no column name has a comma. */
  lemma HeaderWidthIff(columns: seq<string>, blank: Blank)
    requires columns != [] && PlainBlanks(blank)
    ensures HeaderWidth(Trim(RowText(columns), blank)) == |columns| <==>
              forall i :: 0 <= i < |columns| ==> ',' !in columns[i]
  {
    RowCommas(columns);
    NoCommasInIff(columns);
    TrimLeftKeepsCommas(RowText(columns), blank);
    TrimRightKeepsCommas(TrimLeft(RowText(columns), blank), blank);
  }

  /** A row that is printed on one line and is not blank. */
  ghost predicate Printable(cells: seq<string>, blank: Blank) {
    cells != [] && (forall i :: 0 <= i < |cells| ==> '\n' !in cells[i]) && Noticeable(cells, blank)
  }

  lemma {:induction false} LinesConcat(a: string, b: string, current: string)
    ensures Lines(a + ['\n'] + b, current) == Lines(a + ['\n'], current) + Lines(b, [])
    decreases |a|
  {
    var whole, first := a + ['\n'] + b, a + ['\n'];
    if a == [] {
      assert whole[1..] == b && first[1..] == [];
    } else {
      assert whole[1..] == a[1..] + ['\n'] + b && first[1..] == a[1..] + ['\n'];
      if a[0] == '\n' {
        LinesConcat(a[1..], b, []);
      } else {
        LinesConcat(a[1..], b, current + [a[0]]);
      }
    }
  }

  lemma {:induction false} RowsOfConcat(a: seq<string>, b: seq<string>, blank: Blank)
    ensures RowsOf(a + b, blank) == RowsOf(a, blank) + RowsOf(b, blank)
  {
    if a == [] {
      assert a + b == b;
    } else {
      RowsOfConcat(a[1..], b, blank);
      assert (a + b)[0] == a[0] && (a + b)[1..] == a[1..] + b;
      Assoc(RowOf(a[0], blank), RowsOf(a[1..], blank), RowsOf(b, blank));
    }
  }

  /** A text that is empty or ends with a line feed. */
  predicate Closed(s: string) { s == [] || s[|s| - 1] == '\n' }

  /** Texts made of whole lines can be read separately. */
  lemma ReadSeparately(a: string, b: string, blank: Blank)
    requires Closed(a)
    ensures RowsOf(Lines(a + b, []), blank) == RowsOf(Lines(a, []), blank) + RowsOf(Lines(b, []), blank)
  {
    if a == [] {
      assert a + b == b && Lines(a, []) == [];
    } else {
      var front := a[..|a| - 1];
      assert a == front + ['\n'];
      LinesConcat(front, b, []);
      RowsOfConcat(Lines(a, []), Lines(b, []), blank);
    }
  }

  function TrimRows(rows: seq<seq<Option<string>>>, blank: Blank): (r: seq<Row>)
    ensures |r| == |rows|
  {
    seq(|rows|, i requires 0 <= i < |rows| => TrimAll(Texts(rows[i]), blank))
  }

  lemma TrimRowsSnoc(rows: seq<seq<Option<string>>>, blank: Blank)
    requires rows != []
    ensures TrimRows(rows, blank) == TrimRows(rows[..|rows| - 1], blank) + [TrimAll(Texts(rows[|rows| - 1]), blank)]
  {
  }

  lemma {:induction false} BodyReadsBack(rows: seq<seq<Option<string>>>, blank: Blank)
    requires PlainBlanks(blank) && forall i :: 0 <= i < |rows| ==> Printable(Texts(rows[i]), blank)
    ensures Closed(Body(rows)) && RowsOf(Lines(Body(rows), []), blank) == TrimRows(rows, blank)
  {
    if rows != [] {
      var front, last := rows[..|rows| - 1], Texts(rows[|rows| - 1]);
      BodyReadsBack(front, blank);
      ReadSeparately(Body(front), RowText(last) + ['\n'], blank);
      PrintedRowIsIngestedIff(last, blank);
      TrimRowsSnoc(rows, blank);
    }
  }

  lemma HeaderLine(columns: seq<string>, body: string)
    requires columns != [] && '\n' !in RowText(columns)
    ensures Lines(RowText(columns) + ['\n'] + body, []) == [RowText(columns)] + Lines(body, [])
  {
    LinesUpTo(RowText(columns), body, []);
    RowEndsClean(columns);
    assert [] + RowText(columns) == RowText(columns);
  }

  /** What a printed result should be read as: a header of its width, and its trimmed rows. */
  ghost predicate ReadsBack(columns: seq<string>, rows: seq<seq<Option<string>>>, blank: Blank) {
    var lines := Lines(RowText(columns) + ['\n'] + Body(rows), []);
    && HasHeader(lines, blank) && HeaderWidth(Trim(lines[0], blank)) == |columns|
    && RowsOf(lines[1..], blank) == TrimRows(rows, blank)
  }

  // ---- How many rows are read ------------------------------------------------------------------------

  /** A row that is printed as a blank line: one empty or blank cell, without quotes. */
  predicate PrintsBlank(cells: seq<string>, blank: Blank) { cells == [] || !Noticeable(cells, blank) }

  predicate HasFeed(cells: seq<string>) { exists i :: 0 <= i < |cells| && '\n' in cells[i] }

  ghost predicate NoBlankRow(rows: seq<seq<Option<string>>>, blank: Blank) {
    forall i :: 0 <= i < |rows| ==> !PrintsBlank(Texts(rows[i]), blank)
  }

  ghost predicate NoFeedRow(rows: seq<seq<Option<string>>>) { forall i :: 0 <= i < |rows| ==> !HasFeed(Texts(rows[i])) }

  /** A blank row is read as none, a row with a line feed as two at least, and any other as one. */
  lemma RowYield(cells: seq<string>, blank: Blank)
    requires PlainBlanks(blank)
    ensures var n := |RowsOf(Lines(RowText(cells) + ['\n'], []), blank)|;
            if HasFeed(cells) then n > 1 else n == if PrintsBlank(cells, blank) then 0 else 1
  {
    if cells == [] {
      OneLine([]);
      assert [""][1..] == [];
    } else {
      CellLineFeed(cells);
      if HasFeed(cells) { LineFeedSplits(cells, blank); } else { OneLineRow(cells, blank); }
    }
  }

  function RowsRead(rows: seq<seq<Option<string>>>, blank: Blank): nat { |RowsOf(Lines(Body(rows), []), blank)| }

  lemma NoBlankRowSnoc(rows: seq<seq<Option<string>>>, blank: Blank)
    requires rows != []
    ensures NoBlankRow(rows, blank) <==>
              NoBlankRow(rows[..|rows| - 1], blank) && !PrintsBlank(Texts(rows[|rows| - 1]), blank)
  {
    var front := rows[..|rows| - 1];
    if NoBlankRow(front, blank) && !PrintsBlank(Texts(rows[|rows| - 1]), blank) {
      forall i | 0 <= i < |rows| ensures !PrintsBlank(Texts(rows[i]), blank) {
        if i < |front| { assert front[i] == rows[i]; }
      }
    }
  }

  lemma NoFeedRowSnoc(rows: seq<seq<Option<string>>>)
    requires rows != []
    ensures NoFeedRow(rows) <==> NoFeedRow(rows[..|rows| - 1]) && !HasFeed(Texts(rows[|rows| - 1]))
  {
    var front := rows[..|rows| - 1];
    if NoFeedRow(front) && !HasFeed(Texts(rows[|rows| - 1])) {
      forall i | 0 <= i < |rows| ensures !HasFeed(Texts(rows[i])) {
        if i < |front| { assert front[i] == rows[i]; }
      }
    }
  }

  lemma LastRowRead(rows: seq<seq<Option<string>>>, blank: Blank)
    requires PlainBlanks(blank) && rows != [] && Closed(Body(rows[..|rows| - 1]))
    ensures RowsRead(rows, blank) == RowsRead(rows[..|rows| - 1], blank)
                + |RowsOf(Lines(RowText(Texts(rows[|rows| - 1])) + ['\n'], []), blank)|
    ensures Closed(Body(rows))
  {
    ReadSeparately(Body(rows[..|rows| - 1]), RowText(Texts(rows[|rows| - 1])) + ['\n'], blank);
  }

  lemma {:induction false} CountRowsRead(rows: seq<seq<Option<string>>>, blank: Blank)
    requires PlainBlanks(blank)
    ensures Closed(Body(rows))
    ensures NoBlankRow(rows, blank) ==> RowsRead(rows, blank) >= |rows|
    ensures NoBlankRow(rows, blank) && !NoFeedRow(rows) ==> RowsRead(rows, blank) > |rows|
    ensures NoFeedRow(rows) ==> RowsRead(rows, blank) <= |rows|
    ensures NoFeedRow(rows) && !NoBlankRow(rows, blank) ==> RowsRead(rows, blank) < |rows|
  {
    if rows != [] {
      CountRowsRead(rows[..|rows| - 1], blank);
      LastRowRead(rows, blank);
      RowYield(Texts(rows[|rows| - 1]), blank);
      NoBlankRowSnoc(rows, blank);
      NoFeedRowSnoc(rows);
    }
  }

  // ---- Which results read back ------------------------------------------------------------------------

  /** A header with a line feed leaves part of itself behind as a row. */
  lemma SplitHeaderIsRead(columns: seq<string>, rows: seq<seq<Option<string>>>, blank: Blank)
    requires PlainBlanks(blank) && columns != [] && '\n' in RowText(columns) && NoBlankRow(rows, blank)
    ensures !ReadsBack(columns, rows, blank)
  {
    var text, body := RowText(columns), Body(rows);
    var k := FirstLineFeed(text);
    var first, rest := text[..k], text[k + 1..];
    PrintedFeedsQuoted(columns);
    Resplit(text, k, ['\n'] + body);
    Assoc(text, ['\n'], body);
    Assoc(rest, ['\n'], body);
    LinesUpTo(first, rest + ['\n'] + body, []);
    var lines := Lines(text + ['\n'] + body, []);
    assert lines[1..] == Lines(rest + ['\n'] + body, []);
    ReadSeparately(rest + ['\n'], body, blank);
    QuoteYieldsRow(rest, [], blank);
    CountRowsRead(rows, blank);
  }

  lemma OneLineHeaderReadsBackIff(columns: seq<string>, rows: seq<seq<Option<string>>>, blank: Blank)
    requires PlainBlanks(blank) && columns != [] && '\n' !in RowText(columns)
    requires NoBlankRow(rows, blank) || NoFeedRow(rows)
    ensures ReadsBack(columns, rows, blank) <==>
              && Noticeable(columns, blank) && (forall i :: 0 <= i < |columns| ==> ',' !in columns[i])
              && NoBlankRow(rows, blank) && NoFeedRow(rows)
  {
    HeaderLine(columns, Body(rows));
    NoticeableText(columns, blank);
    HeaderWidthIff(columns, blank);
    CountRowsRead(rows, blank);
    if NoBlankRow(rows, blank) && NoFeedRow(rows) { BodyReadsBack(rows, blank); }
    var lines := Lines(RowText(columns) + ['\n'] + Body(rows), []);
    assert lines[1..] == Lines(Body(rows), []);
  }

  lemma NoColumnsNoHeader(rows: seq<seq<Option<string>>>, blank: Blank)
    ensures !ReadsBack([], rows, blank)
  {
    var text := RowText([]) + ['\n'] + Body(rows);
    assert text[1..] == Body(rows);
    assert Lines(text, []) == [[]] + Lines(Body(rows), []);
  }

  /** The column names have no comma and no line feed and are not one blank name, the cells have no line feed, and no
      row is one blank cell.  Quotes do no harm. */
  ghost predicate Plain(columns: seq<string>, rows: seq<seq<Option<string>>>, blank: Blank) {
    && !PrintsBlank(columns, blank) && !HasFeed(columns) && (forall i :: 0 <= i < |columns| ==> ',' !in columns[i])
    && NoBlankRow(rows, blank) && NoFeedRow(rows)
  }

  /** Exactly which printed results are read back.  A result with both a blank row and a line feed is left aside: the
      blank row vanishes while the line feed adds a row, and the two can cancel out (`BlankRowHidesSplitRow`).  Such a
      result has one column only. */
  lemma PrintedResultReadsBackIff(columns: seq<string>, rows: seq<seq<Option<string>>>, blank: Blank)
    requires PlainBlanks(blank)
    requires NoBlankRow(rows, blank) || (NoFeedRow(rows) && !HasFeed(columns))
    ensures ReadsBack(columns, rows, blank) <==> Plain(columns, rows, blank)
  {
    if columns == [] {
      NoColumnsNoHeader(rows, blank);
    } else {
      CellLineFeed(columns);
      if '\n' in RowText(columns) {
        SplitHeaderIsRead(columns, rows, blank);
      } else {
        OneLineHeaderReadsBackIff(columns, rows, blank);
      }
    }
  }

  /** The result and every prefix of it are read back: each row in its place. */
  ghost predicate PrefixesReadBack(columns: seq<string>, rows: seq<seq<Option<string>>>, blank: Blank)
    decreases |rows|
  {
    ReadsBack(columns, rows, blank) && (rows == [] || PrefixesReadBack(columns, rows[..|rows| - 1], blank))
  }

  /** For every result: each of its rows is read back in its place if and only if the result is plain. */
  lemma {:induction false} EveryRowReadsBackInPlaceIff(columns: seq<string>, rows: seq<seq<Option<string>>>,
          blank: Blank)
    requires PlainBlanks(blank)
    ensures PrefixesReadBack(columns, rows, blank) <==> Plain(columns, rows, blank)
    decreases |rows|
  {
    if rows == [] {
      PrintedResultReadsBackIff(columns, rows, blank);
    } else {
      EveryRowReadsBackInPlaceIff(columns, rows[..|rows| - 1], blank);
      NoBlankRowSnoc(rows, blank);
      NoFeedRowSnoc(rows);
      if Plain(columns, rows[..|rows| - 1], blank) { PrintedResultReadsBackIff(columns, rows, blank); }
    }
  }

  /** A result with a NULL and a cell that is a line feed: its three lines are read as its two trimmed rows. */
  lemma BlankRowHidesSplitRow(blank: Blank)
    requires PlainBlanks(blank) && blank('\n') && !blank('x')
    ensures ReadsBack(["x"], [[None], [Some("\n")]], blank)
  {
    var rows := [[None], [Some("\n")]];
    BlankAndFeedText(rows);
    HeaderLine(["x"], Body(rows));
    BlankAndFeedLines();
    BlankAndFeedRows(blank);
    BlankAndFeedTrimmed(rows, blank);
    assert Commas("x") == 0 by { assert "x"[1..] == []; }
    var lines := Lines(RowText(["x"]) + ['\n'] + Body(rows), []);
    assert lines[1..] == ["", "\"", "\""];
  }

  lemma BlankAndFeedRows(blank: Blank)
    requires PlainBlanks(blank)
    ensures RowsOf(["", "\"", "\""], blank) == [[""], [""]]
  {
    LoneQuoteIsEmptyRow(blank);
    assert ["", "\"", "\""][1..] == ["\"", "\""] && ["\"", "\""][1..] == ["\""] && ["\""][1..] == [];
  }

  lemma BlankAndFeedTrimmed(rows: seq<seq<Option<string>>>, blank: Blank)
    requires rows == [[None], [Some("\n")]] && blank('\n')
    ensures TrimRows(rows, blank) == [[""], [""]]
  {
    FeedIsTrimmedAway(blank);
    assert Texts(rows[0]) == [""] && Texts(rows[1]) == ["\n"];
  }

  lemma BlankAndFeedText(rows: seq<seq<Option<string>>>)
    requires rows == [[None], [Some("\n")]]
    ensures Body(rows) == ['\n', '"', '\n', '"', '\n']
  {
    assert rows[..1] == [[None]] && rows[..1][..0] == [];
    assert Texts([None]) == [""] && Texts([Some("\n")]) == ["\n"];
    assert Doubled("\n") == ['\n'] + Doubled([]) by { assert "\n"[1..] == []; }
    assert RowText(["\n"]) == ['"', '\n', '"'];
    assert Body([[None]]) == ['\n'];
  }

  lemma BlankAndFeedLines()
    ensures Lines(['\n', '"', '\n', '"', '\n'], []) == ["", "\"", "\""]
  {
    var two, four := ['"', '\n'], ['"', '\n', '"', '\n'];
    OneLine(['"']);
    assert ['"'] + ['\n'] == two;
    assert Lines(two, []) == ["\""];
    LinesUpTo(['"'], two, []);
    assert ['"'] + ['\n'] + two == four && [] + ['"'] == ['"'];
    assert Lines(four, []) == ["\"", "\""];
    assert ['\n', '"', '\n', '"', '\n'][1..] == four;
    assert [""] + ["\"", "\""] == ["", "\"", "\""];
  }

  lemma FeedIsTrimmedAway(blank: Blank)
    requires blank('\n')
    ensures TrimAll([""], blank) == TrimAll(["\n"], blank) == [""]
  {
    assert "\n"[1..] == [];
    assert TrimLeft("\n", blank) == [];
  }

  lemma LoneQuoteIsEmptyRow(blank: Blank)
    requires PlainBlanks(blank)
    ensures RowOf("\"", blank) == [[""]]
  {
    assert ['"'][1..] == [];
    assert Fields(['"'], false, [], blank) == Fields([], true, [], blank) == [""];
  }
}
