/** Seed ingestion: splitting a CSV text into rows and inserting them in bounded batches. */
module CsvSeed {
  import opened Prelude
  import opened Csv

  /** MAX_SEED_BATCH_ROWS */
  const MAX_BATCH: nat := 1000

  type Row = seq<string>

  // ---- Lines -------------------------------------------------------------------------------------------

  function StripCr(line: string): string {
    if line != [] && line[|line| - 1] == '\r' then line[..|line| - 1] else line
  }

  /** The lines of a text: a line ends with a line feed, or a carriage return and a line feed; the last end is
      optional. */
  function Lines(text: string, current: string): seq<string> {
    if text == [] then (if current == [] then [] else [current])
    else if text[0] == '\n' then [StripCr(current)] + Lines(text[1..], [])
    else Lines(text[1..], current + [text[0]])
  }

  /** The row of a line, unless it is blank. */
  function RowOf(line: string, blank: Blank): seq<Row> {
    if Trim(line, blank) == [] then [] else [ParseLine(Trim(line, blank), blank)]
  }

  /** The rows of the lines that are not blank. */
  function RowsOf(lines: seq<string>, blank: Blank): seq<Row> {
    if lines == [] then [] else RowOf(lines[0], blank) + RowsOf(lines[1..], blank)
  }

  // ---- Batches -----------------------------------------------------------------------------------------

  function Flatten(batches: seq<seq<Row>>): seq<Row> {
    if batches == [] then [] else Flatten(batches[..|batches| - 1]) + batches[|batches| - 1]
  }

  predicate BatchesOk(batches: seq<seq<Row>>) {
    forall i :: 0 <= i < |batches| ==>
          0 < |batches[i]| <= MAX_BATCH && (i < |batches| - 1 ==> |batches[i]| == MAX_BATCH)
  }

  datatype IngestError = RowMismatch | InsertFailed

  /** Every row so far has the right number of columns. */
  predicate Regular(rows: seq<Row>, columns: nat) {
    forall i :: 0 <= i < |rows| ==> |rows[i]| == columns
  }

  /** Row r is the first with a wrong number of columns. */
  predicate FirstIrregular(rows: seq<Row>, columns: nat, r: int) {
    0 <= r < |rows| && |rows[r]| != columns && Regular(rows[..r], columns)
  }

  /** Full batches sent, a partial one pending, `seen` the rows they hold. */
  ghost predicate Pending(batches: seq<seq<Row>>, batch: seq<Row>, seen: seq<Row>) {
    && |batch| < MAX_BATCH
    && (forall i :: 0 <= i < |batches| ==> |batches[i]| == MAX_BATCH)
    && seen == Flatten(batches) + batch
    && |Flatten(batches)| == MAX_BATCH * |batches|
  }

  lemma FlattenOne(batches: seq<seq<Row>>, batch: seq<Row>)
    ensures Flatten(batches + [batch]) == Flatten(batches) + batch
  {
    assert (batches + [batch])[..|batches|] == batches;
  }

  /** A row goes to the pending batch. */
  lemma PendRow(batches: seq<seq<Row>>, batch: seq<Row>, seen: seq<Row>, row: Row)
    requires Pending(batches, batch, seen) && |batch| + 1 < MAX_BATCH
    ensures Pending(batches, batch + [row], seen + [row])
  {
    assert Flatten(batches) + batch + [row] == Flatten(batches) + (batch + [row]);
  }

  /** A row completes the pending batch. */
  lemma SendFull(batches: seq<seq<Row>>, batch: seq<Row>, seen: seq<Row>, row: Row)
    requires Pending(batches, batch, seen) && |batch| + 1 == MAX_BATCH
    ensures Pending(batches + [batch + [row]], [], seen + [row])
  {
    FlattenOne(batches, batch + [row]);
    assert Flatten(batches) + batch + [row] == Flatten(batches) + (batch + [row]);
    assert Flatten(batches) + (batch + [row]) + [] == Flatten(batches) + (batch + [row]);
  }

  /** What has been sent while a batch is pending. */
  lemma SentSoFar(batches: seq<seq<Row>>, batch: seq<Row>, seen: seq<Row>, rest: seq<Row>)
    requires Pending(batches, batch, seen)
    ensures BatchesOk(batches) && Flatten(batches) <= seen + rest
    ensures |Flatten(batches)| == |seen| - |seen| % MAX_BATCH
  {
    var n := |batches|;
    assert |seen| == MAX_BATCH * n + |batch|;
  }

  /** The last, partial batch. */
  lemma SendLast(batches: seq<seq<Row>>, batch: seq<Row>, seen: seq<Row>)
    requires Pending(batches, batch, seen) && batch != []
    ensures BatchesOk(batches + [batch]) && Flatten(batches + [batch]) == seen
  {
    FlattenOne(batches, batch);
  }

  /** The next line either is skipped or adds one row. */
  lemma NextLine(lines: seq<string>, i: nat, blank: Blank)
    requires i < |lines|
    ensures RowsOf(lines[i..], blank) == RowOf(lines[i], blank) + RowsOf(lines[i + 1..], blank)
  {
    assert lines[i..][1..] == lines[i + 1..];
  }

  lemma RegularSnoc(seen: seq<Row>, row: Row, rest: seq<Row>, columns: nat)
    requires Regular(seen, columns)
    ensures |row| == columns ==> Regular(seen + [row], columns)
    ensures |row| != columns ==> FirstIrregular(seen + ([row] + rest), columns, |seen|)
  {
    assert (seen + ([row] + rest))[..|seen|] == seen;
  }

  /** The database took every INSERT so far. */
  predicate AllAccepted(batches: seq<seq<Row>>, accepts: nat -> bool) {
    forall k :: 0 <= k < |batches| ==> accepts(k)
  }

  /** Adds a row to the pending batch and sends the batch when it is full. */
  method AddRow(batches: seq<seq<Row>>, batch: seq<Row>, row: Row, accepts: nat -> bool, ghost seen: seq<Row>)
    returns (sent: seq<seq<Row>>, pending: seq<Row>, failed: bool)
    requires Pending(batches, batch, seen) && AllAccepted(batches, accepts)
    ensures failed ==> !accepts(|batches|) && sent == batches && |batch| + 1 == MAX_BATCH
    ensures !failed ==> Pending(sent, pending, seen + [row]) && AllAccepted(sent, accepts)
  {
    sent, pending, failed := batches, batch + [row], false;
    if |pending| >= MAX_BATCH {
      failed := !accepts(|batches|);
      if !failed {
        SendFull(batches, batch, seen, row);
        sent, pending := batches + [pending], [];
      }
    } else {
      PendRow(batches, batch, seen, row);
    }
  }

  /** Sends the last batch, if there is one. */
  method Flush(batches: seq<seq<Row>>, batch: seq<Row>, accepts: nat -> bool, ghost seen: seq<Row>)
    returns (sent: seq<seq<Row>>, failed: bool)
    requires Pending(batches, batch, seen) && AllAccepted(batches, accepts)
    ensures BatchesOk(sent) && Flatten(sent) <= seen && AllAccepted(sent, accepts)
    ensures failed ==> !accepts(|sent|) && |Flatten(sent)| == MAX_BATCH * |sent|
    ensures failed ==> MAX_BATCH * |sent| < |seen| < MAX_BATCH * |sent| + MAX_BATCH
    ensures !failed ==> Flatten(sent) == seen
  {
    SentSoFar(batches, batch, seen, []);
    assert seen + [] == seen;
    sent, failed := batches, false;
    if batch != [] {
      failed := !accepts(|batches|);
      if !failed {
        SendLast(batches, batch, seen);
        sent := batches + [batch];
      }
    }
  }

  /** What `ingest_csv_seed` has sent when it stops, for the rows of the file: the batches are never empty, hold at
      most 1000 rows, are, in order, the first rows and were all taken by the database; without an error, they are all
      rows; at a row with the wrong number of columns, exactly the full batches before it; at an INSERT that the
      database refuses, exactly those before it, and the refused one was due. */
  ghost predicate Ingested(rows: seq<Row>, columns: nat, accepts: nat -> bool, batches: seq<seq<Row>>,
                           error: Option<IngestError>)
  {
    && BatchesOk(batches) && Flatten(batches) <= rows && AllAccepted(batches, accepts)
    && match error
       case None => Regular(rows, columns) && Flatten(batches) == rows
       case Some(RowMismatch) => exists r :: FirstIrregular(rows, columns, r) && |Flatten(batches)| == r - r % MAX_BATCH
       case Some(InsertFailed) =>
         !accepts(|batches|) && |Flatten(batches)| == MAX_BATCH * |batches| && Due(rows, columns, MAX_BATCH * |batches|)
  }

  /** After d rows another INSERT is due: a full batch of rows with the right number of columns follows, or all rows
      have it and fewer are left. */
  predicate Due(rows: seq<Row>, columns: nat, d: nat) {
    || (d + MAX_BATCH <= |rows| && Regular(rows[..d + MAX_BATCH], columns))
    || (d < |rows| < d + MAX_BATCH && Regular(rows, columns))
  }

  lemma StopAtMismatch(batches: seq<seq<Row>>, batch: seq<Row>, seen: seq<Row>, row: Row, rest: seq<Row>, columns: nat,
                       accepts: nat -> bool)
    requires Pending(batches, batch, seen) && Regular(seen, columns) && |row| != columns
    requires AllAccepted(batches, accepts)
    ensures Ingested(seen + ([row] + rest), columns, accepts, batches, Some(RowMismatch))
  {
    SentSoFar(batches, batch, seen, [row] + rest);
    RegularSnoc(seen, row, rest, columns);
  }

  lemma StopAtFailure(batches: seq<seq<Row>>, batch: seq<Row>, seen: seq<Row>, row: Row, rest: seq<Row>, columns: nat,
                      accepts: nat -> bool)
    requires Pending(batches, batch, seen) && Regular(seen, columns) && |row| == columns && |batch| + 1 == MAX_BATCH
    requires AllAccepted(batches, accepts) && !accepts(|batches|)
    ensures Ingested(seen + ([row] + rest), columns, accepts, batches, Some(InsertFailed))
  {
    SentSoFar(batches, batch, seen, [row] + rest);
    RegularSnoc(seen, row, rest, columns);
    assert (seen + ([row] + rest))[..|seen| + 1] == seen + [row];
  }

  /** The row loop of `ingest_csv_seed`; `accepts(k)` is whether the database takes the k-th INSERT. */
  method IngestRows(lines: seq<string>, columns: nat, blank: Blank, accepts: nat -> bool)
    returns (batches: seq<seq<Row>>, error: Option<IngestError>)
    ensures Ingested(RowsOf(lines, blank), columns, accepts, batches, error)
  {
    batches := [];
    ghost var rows := RowsOf(lines, blank);
    var batch: seq<Row> := [];
    var failed: bool;
    ghost var seen: seq<Row> := [];
    assert lines[0..] == lines && [] + rows == rows;
    for i := 0 to |lines|
      invariant Pending(batches, batch, seen) && Regular(seen, columns) && AllAccepted(batches, accepts)
      invariant rows == seen + RowsOf(lines[i..], blank)
    {
      var trimmed := Trim(lines[i], blank);
      NextLine(lines, i, blank);
      ghost var rest := RowsOf(lines[i + 1..], blank);
      if trimmed == [] {
        assert [] + rest == rest;
        continue;
      }
      var row := ParseCsvLine(trimmed, blank);
      if |row| != columns {
        StopAtMismatch(batches, batch, seen, row, rest, columns, accepts);
        return batches, Some(RowMismatch);
      }
      ghost var before, partial := batches, batch;
      batches, batch, failed := AddRow(batches, batch, row, accepts, seen);
      if failed {
        StopAtFailure(before, partial, seen, row, rest, columns, accepts);
        return batches, Some(InsertFailed);
      }
      RegularSnoc(seen, row, rest, columns);
      Assoc(seen, [row], rest);
      seen := seen + [row];
    }
    assert RowsOf(lines[|lines|..], blank) == [] && rows == seen;
    batches, failed := Flush(batches, batch, accepts, seen);
    error := if failed then Some(InsertFailed) else None;
  }

  // ---- Trimming a line before parsing it --------------------------------------------------------------

  /** Blanks are neither quotes nor commas. */
  predicate PlainBlanks(blank: Blank) { !blank('"') && !blank(',') }

  lemma {:induction false} TrimLeftSnoc(s: string, w: char, blank: Blank)
    requires blank(w)
    ensures TrimLeft(s + [w], blank) == if TrimLeft(s, blank) == [] then [] else TrimLeft(s, blank) + [w]
  {
    if s == [] {
      assert (s + [w])[1..] == [];
    } else if blank(s[0]) {
      TrimLeftSnoc(s[1..], w, blank);
      assert (s + [w])[1..] == s[1..] + [w];
    }
  }

  lemma TrimIgnoresOuter(s: string, w: char, blank: Blank)
    requires blank(w)
    ensures Trim([w] + s, blank) == Trim(s, blank) && Trim(s + [w], blank) == Trim(s, blank)
  {
    assert ([w] + s)[1..] == s;
    TrimLeftSnoc(s, w, blank);
    var t := TrimLeft(s, blank);
    assert (t + [w])[..|t|] == t;
  }

  /** A blank in front of the current field makes no difference. */
  lemma {:induction false} LeadingBlank(rest: string, inQuotes: bool, current: string, w: char, blank: Blank)
    requires blank(w)
    ensures Fields(rest, inQuotes, [w] + current, blank) == Fields(rest, inQuotes, current, blank)
    decreases |rest|
  {
    if rest == [] {
      TrimIgnoresOuter(current, w, blank);
    } else if rest[0] == '"' {
      if inQuotes && |rest| > 1 && rest[1] == '"' {
        Assoc([w], current, ['"']);
        LeadingBlank(rest[2..], inQuotes, current + ['"'], w, blank);
      } else {
        LeadingBlank(rest[1..], !inQuotes, current, w, blank);
      }
    } else if rest[0] == ',' && !inQuotes {
      TrimIgnoresOuter(current, w, blank);
    } else {
      Assoc([w], current, [rest[0]]);
      LeadingBlank(rest[1..], inQuotes, current + [rest[0]], w, blank);
    }
  }

  /** Nor does a blank at the end of the line. */
  lemma {:induction false} TrailingBlank(rest: string, inQuotes: bool, current: string, w: char, blank: Blank)
    requires blank(w) && PlainBlanks(blank)
    ensures Fields(rest + [w], inQuotes, current, blank) == Fields(rest, inQuotes, current, blank)
    decreases |rest|
  {
    if rest == [] {
      assert rest + [w] == [w] + [];
      ReadPlain(w, [], inQuotes, current, blank);
      TrimIgnoresOuter(current, w, blank);
    } else {
      assert (rest + [w])[1..] == rest[1..] + [w];
      if rest[0] == '"' {
        if inQuotes && |rest| > 1 && rest[1] == '"' {
          assert (rest + [w])[2..] == rest[2..] + [w];
          TrailingBlank(rest[2..], inQuotes, current + ['"'], w, blank);
        } else {
          TrailingBlank(rest[1..], !inQuotes, current, w, blank);
        }
      } else if rest[0] == ',' && !inQuotes {
        TrailingBlank(rest[1..], inQuotes, [], w, blank);
      } else {
        TrailingBlank(rest[1..], inQuotes, current + [rest[0]], w, blank);
      }
    }
  }

  lemma {:induction false} TrimLeftParses(line: string, blank: Blank)
    requires PlainBlanks(blank)
    ensures ParseLine(TrimLeft(line, blank), blank) == ParseLine(line, blank)
  {
    if line != [] && blank(line[0]) {
      TrimLeftParses(line[1..], blank);
      assert line == [line[0]] + line[1..];
      ReadPlain(line[0], line[1..], false, [], blank);
      assert [] + [line[0]] == [line[0]] + [];
      LeadingBlank(line[1..], false, [], line[0], blank);
    }
  }

  lemma {:induction false} TrimRightParses(line: string, blank: Blank)
    requires PlainBlanks(blank)
    ensures ParseLine(TrimRight(line, blank), blank) == ParseLine(line, blank)
  {
    if line != [] && blank(line[|line| - 1]) {
      TrimRightParses(line[..|line| - 1], blank);
      assert line == line[..|line| - 1] + [line[|line| - 1]];
      TrailingBlank(line[..|line| - 1], false, [], line[|line| - 1], blank);
    }
  }

  /** Trimming a whole line first never changes what it parses to. */
  lemma TrimmedLineParses(line: string, blank: Blank)
    requires PlainBlanks(blank)
    ensures ParseLine(Trim(line, blank), blank) == ParseLine(line, blank)
  {
    TrimLeftParses(line, blank);
    TrimRightParses(TrimLeft(line, blank), blank);
  }

  // ---- Which printed rows survive ingestion ------------------------------------------------------------

  lemma {:induction false} TrimLeftKeeps(s: string, c: char, blank: Blank)
    requires c in s && !blank(c)
    ensures c in TrimLeft(s, blank)
  {
    if blank(s[0]) {
      assert s == [s[0]] + s[1..];
      TrimLeftKeeps(s[1..], c, blank);
    }
  }

  lemma {:induction false} TrimRightKeeps(s: string, c: char, blank: Blank)
    requires c in s && !blank(c)
    ensures c in TrimRight(s, blank)
  {
    if blank(s[|s| - 1]) {
      assert s == s[..|s| - 1] + [s[|s| - 1]];
      TrimRightKeeps(s[..|s| - 1], c, blank);
    }
  }

  /** A character that is not blank survives trimming. */
  lemma TrimKeeps(s: string, c: char, blank: Blank)
    requires c in s && !blank(c)
    ensures c in Trim(s, blank)
  {
    TrimLeftKeeps(s, c, blank);
    TrimRightKeeps(TrimLeft(s, blank), c, blank);
  }

  lemma {:induction false} LinesUpTo(line: string, rest: string, current: string)
    requires '\n' !in line
    ensures Lines(line + ['\n'] + rest, current) == [StripCr(current + line)] + Lines(rest, [])
  {
    if line == [] {
      assert (line + ['\n'] + rest)[1..] == rest && current + line == current;
    } else {
      assert (line + ['\n'] + rest)[1..] == line[1..] + ['\n'] + rest;
      LinesUpTo(line[1..], rest, current + [line[0]]);
      assert current + [line[0]] + line[1..] == current + line;
    }
  }

  /** Both kinds of line ends, and only one of them, are taken off a line. */
  lemma LineEnds(line: string, rest: string)
    requires '\n' !in line
    ensures Lines(line + ['\r', '\n'] + rest, []) == [line] + Lines(rest, [])
    ensures (line == [] || line[|line| - 1] != '\r') ==> Lines(line + ['\n'] + rest, []) == [line] + Lines(rest, [])
    ensures line != [] ==> Lines(line, []) == [line]
  {
    LinesUpTo(line + ['\r'], rest, []);
    assert line + ['\r'] + ['\n'] == line + ['\r', '\n'];
    assert [] + (line + ['\r']) == line + ['\r'] && (line + ['\r'])[..|line|] == line;
    LinesUpTo(line, rest, []);
    assert [] + line == line;
    LastLine(line, []);
  }

  /** A last line without an end is taken as it is. */
  lemma {:induction false} LastLine(line: string, current: string)
    requires '\n' !in line
    ensures Lines(line, current) == if current + line == [] then [] else [current + line]
    decreases |line|
  {
    if line == [] {
      assert current + line == current;
    } else {
      LastLine(line[1..], current + [line[0]]);
      assert current + [line[0]] + line[1..] == current + line;
    }
  }

  /** Text with a quote in it, up to a line end, yields at least one row. */
  lemma {:induction false} QuoteYieldsRow(text: string, current: string, blank: Blank)
    requires PlainBlanks(blank) && ('"' in text || '"' in current)
    ensures RowsOf(Lines(text + ['\n'], current), blank) != []
    decreases |text|
  {
    var all := text + ['\n'];
    if text == [] {
      assert all[1..] == [];
      StripCrKeepsQuote(current);
      TrimKeeps(StripCr(current), '"', blank);
    } else {
      assert all[1..] == text[1..] + ['\n'];
      assert text == [text[0]] + text[1..];
      if text[0] == '\n' {
        if '"' in current {
          StripCrKeepsQuote(current);
          TrimKeeps(StripCr(current), '"', blank);
        } else {
          QuoteYieldsRow(text[1..], [], blank);
        }
      } else {
        QuoteYieldsRow(text[1..], current + [text[0]], blank);
      }
    }
  }

  lemma StripCrKeepsQuote(s: string)
    requires '"' in s
    ensures '"' in StripCr(s)
  {
    assert s == s[..|s| - 1] + [s[|s| - 1]];
  }

  /** Every line feed of a text stands between two quotes. */
  predicate FeedsQuoted(text: string) {
    forall k :: 0 <= k < |text| && text[k] == '\n' ==> '"' in text[..k] && '"' in text[k + 1..]
  }

  lemma {:induction false} PrintedFeedsQuoted(cells: seq<string>)
    requires cells != []
    ensures FeedsQuoted(RowText(cells))
  {
    EscapedFeedsQuoted(cells[0]);
    if |cells| > 1 {
      PrintedFeedsQuoted(cells[1..]);
      JoinedFeedsQuoted(Escape(cells[0]), RowText(cells[1..]));
    }
  }

  lemma EscapedFeedsQuoted(s: string)
    ensures FeedsQuoted(Escape(s))
  {
    var text := Escape(s);
    forall k | 0 <= k < |text| && text[k] == '\n' ensures '"' in text[..k] && '"' in text[k + 1..] {
      assert '\n' in text;
      assert NeedsQuotes(s) && text[0] == text[|text| - 1] == '"';
      assert text[..k][0] == '"' && text[k + 1..][|text| - k - 2] == '"';
    }
  }

  lemma JoinedFeedsQuoted(head: string, rest: string)
    requires FeedsQuoted(head) && FeedsQuoted(rest)
    ensures FeedsQuoted(head + [','] + rest)
  {
    var text, n := head + [','] + rest, |head|;
    forall k | 0 <= k < |text| && text[k] == '\n' ensures '"' in text[..k] && '"' in text[k + 1..] {
      if k < n {
        assert text[..k] == head[..k] && text[k + 1..] == head[k + 1..] + [','] + rest;
      } else {
        var j := k - n - 1;
        assert text[..k] == head + [','] + rest[..j] && text[k + 1..] == rest[j + 1..];
      }
    }
  }

  lemma {:induction false} FirstLineFeed(s: string) returns (k: nat)
    requires '\n' in s
    ensures k < |s| && s[k] == '\n' && '\n' !in s[..k]
  {
    if s[0] == '\n' {
      k := 0;
    } else {
      assert s == [s[0]] + s[1..];
      var j := FirstLineFeed(s[1..]);
      k := j + 1;
      assert s[..k] == [s[0]] + s[1..][..j];
    }
  }

  lemma {:induction false} CellLineFeed(cells: seq<string>)
    requires cells != []
    ensures '\n' in RowText(cells) <==> exists i :: 0 <= i < |cells| && '\n' in cells[i]
  {
    EscapeLineFeed(cells[0]);
    if |cells| > 1 {
      CellLineFeed(cells[1..]);
      assert RowText(cells) == Escape(cells[0]) + [','] + RowText(cells[1..]);
      assert forall i :: 1 <= i < |cells| ==> cells[i] == cells[1..][i - 1];
      assert (exists i :: 0 <= i < |cells| && '\n' in cells[i]) <==>
               '\n' in cells[0] || exists i :: 0 <= i < |cells[1..]| && '\n' in cells[1..][i];
    }
  }

  lemma EscapeLineFeed(s: string)
    ensures '\n' in Escape(s) <==> '\n' in s
  {
    DoubledLineFeed(s);
  }

  lemma {:induction false} DoubledLineFeed(s: string)
    ensures '\n' in Doubled(s) <==> '\n' in s
  {
    if s != [] {
      assert s == [s[0]] + s[1..];
      DoubledLineFeed(s[1..]);
    }
  }

  /** A printed row never ends with a bare carriage return. */
  lemma {:induction false} RowEndsClean(cells: seq<string>)
    requires cells != []
    ensures StripCr(RowText(cells)) == RowText(cells)
  {
    if |cells| > 1 {
      RowEndsClean(cells[1..]);
      var text, rest := RowText(cells), RowText(cells[1..]);
      assert text == Escape(cells[0]) + [','] + rest;
      if rest != [] { assert text[|text| - 1] == rest[|rest| - 1]; }
    }
  }

  /** The row is not a single unquoted blank cell. */
  predicate Noticeable(cells: seq<string>, blank: Blank)
    requires cells != []
  {
    |cells| > 1 || NeedsQuotes(cells[0]) || Trim(cells[0], blank) != []
  }

  lemma NoticeableText(cells: seq<string>, blank: Blank)
    requires cells != [] && PlainBlanks(blank)
    ensures Trim(RowText(cells), blank) != [] <==> Noticeable(cells, blank)
  {
    if |cells| > 1 {
      assert RowText(cells) == Escape(cells[0]) + [','] + RowText(cells[1..]);
      TrimKeeps(RowText(cells), ',', blank);
    } else if NeedsQuotes(cells[0]) {
      TrimKeeps(RowText(cells), '"', blank);
    }
  }

  /** A row with a line feed in it is read as two rows at least. */
  lemma LineFeedSplits(cells: seq<string>, blank: Blank)
    requires cells != [] && PlainBlanks(blank) && '\n' in RowText(cells)
    ensures |RowsOf(Lines(RowText(cells) + ['\n'], []), blank)| > 1
  {
    var text := RowText(cells);
    var k := FirstLineFeed(text);
    PrintedFeedsQuoted(cells);
    SplitYieldsTwo(text[..k], text[k + 1..], blank);
    Resplit(text, k, ['\n']);
  }

  lemma Resplit(text: string, k: nat, end: string)
    requires k < |text|
    ensures text + end == text[..k] + [text[k]] + (text[k + 1..] + end)
  {}

  lemma SplitYieldsTwo(first: string, rest: string, blank: Blank)
    requires PlainBlanks(blank) && '\n' !in first && '"' in first && '"' in rest
    ensures |RowsOf(Lines(first + ['\n'] + (rest + ['\n']), []), blank)| > 1
  {
    var more := Lines(rest + ['\n'], []);
    LinesUpTo(first, rest + ['\n'], []);
    assert [] + first == first;
    StripCrKeepsQuote(first);
    TrimKeeps(StripCr(first), '"', blank);
    QuoteYieldsRow(rest, [], blank);
    assert ([StripCr(first)] + more)[1..] == more;
  }

  /** A row without a line feed is one line, and reads as itself unless that line is blank. */
  lemma OneLineRow(cells: seq<string>, blank: Blank)
    requires cells != [] && PlainBlanks(blank) && '\n' !in RowText(cells)
    ensures RowsOf(Lines(RowText(cells) + ['\n'], []), blank) ==
        if Noticeable(cells, blank) then [TrimAll(cells, blank)] else []
  {
    var text := RowText(cells);
    OneLine(text);
    RowEndsClean(cells);
    NoticeableText(cells, blank);
    TrimmedLineParses(text, blank);
    PrintedRowParses(cells, blank);
    assert [text][1..] == [];
  }

  lemma OneLine(text: string)
    requires '\n' !in text
    ensures Lines(text + ['\n'], []) == [StripCr(text)]
  {
    assert text + ['\n'] == text + ['\n'] + [];
    LinesUpTo(text, [], []);
    assert [] + text == text;
  }

  /** Exactly which printed rows are ingested as the one row they were: those without a line feed in a cell, other
      than a single blank cell printed without quotes.  A line feed inside quotes is printed correctly but split
      before it is parsed. */
  lemma PrintedRowIsIngestedIff(cells: seq<string>, blank: Blank)
    requires cells != [] && PlainBlanks(blank)
    ensures RowsOf(Lines(RowText(cells) + ['\n'], []), blank) == [TrimAll(cells, blank)]
       <==> (forall i :: 0 <= i < |cells| ==> '\n' !in cells[i]) && Noticeable(cells, blank)
  {
    CellLineFeed(cells);
    if '\n' in RowText(cells) {
      LineFeedSplits(cells, blank);
    } else {
      OneLineRow(cells, blank);
    }
  }
}
