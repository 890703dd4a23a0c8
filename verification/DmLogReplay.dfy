/** Replaying a dm-log-writes v1 log onto a disk image up to a named mark. */
module DmLogReplay {
  import opened Prelude
  import opened LittleEndian

  const MAGIC: nat := 0x6A736677736872
  const VERSION: nat := 1
  const FLAG_DISCARD: nat := 4
  const FLAG_MARK: nat := 8
  /** Bytes of the encoded super block and of the encoded entry header. */
  const SUPER_SIZE: nat := 28
  const ENTRY_SIZE: nat := 32

  datatype Error =
    | TruncatedHeader | UnsupportedHeader | InvalidSectorSize
    | TruncatedEntry | InvalidMarkLength | UndecodableMark | DiscardEntry | UnsupportedFlags
    | WriteExceedsImage | TruncatedData
    | MarkNotFound

  datatype Outcome = Replayed(entries: nat, writes: nat, sectors: nat) | Failed(error: Error)

  datatype Write = Write(offset: nat, data: seq<Byte>)

  /** Text decoding of mark bytes: `None` when they are not valid UTF-8. */
  type Decoder = seq<Byte> -> Option<string>

  /** A read of up to `n` bytes at `pos`; short at the end of the file. */
  function ReadAt(log: seq<Byte>, pos: nat, n: nat): seq<Byte> {
    if pos >= |log| then [] else if pos + n <= |log| then log[pos..pos + n] else log[pos..]
  }

  predicate Bit(flags: nat, bit: nat)
    requires bit > 0
  {
    (flags / bit) % 2 == 1
  }

  /** Some bit other than FLUSH (1), FUA (2) and METADATA (16) is set. */
  predicate HasUnsupported(flags: nat) {
    Bit(flags, 4) || Bit(flags, 8) || flags / 32 != 0
  }

  predicate PowerOfTwo(n: nat) {
    n == 1 || (n > 1 && n % 2 == 0 && PowerOfTwo(n / 2))
  }

  datatype Super = Super(magic: nat, version: nat, count: nat, sectorSize: nat)

  function UnpackSuper(header: seq<Byte>): Super
    requires |header| == SUPER_SIZE
  {
    Super(Decode(header[0..8]), Decode(header[8..16]), Decode(header[16..24]), Decode(header[24..28]))
  }

  /** What one log entry asks for. */
  datatype Item =
    | Stop(error: Error)
    | Found
    | Skip(next: nat)
    | Data(write: Write, sectors: nat, next: nat)

  /** The entry whose block starts at `pos`. */
  function ParseAt(log: seq<Byte>, pos: nat, sectorSize: nat, imageSize: nat, endMark: string, decode: Decoder): Item
    requires sectorSize >= ENTRY_SIZE
  {
    var block := ReadAt(log, pos, sectorSize);
    if |block| != sectorSize then Stop(TruncatedEntry)
    else
      var sector, number := Decode(block[0..8]), Decode(block[8..16]);
      var flags, dataLen := Decode(block[16..24]), Decode(block[24..32]);
      var next := pos + sectorSize;
      if Bit(flags, FLAG_MARK) then
        if dataLen == 0 || dataLen > sectorSize - ENTRY_SIZE then Stop(InvalidMarkLength)
        else
          var mark := decode(block[ENTRY_SIZE..ENTRY_SIZE + dataLen]);
          if mark.None? then Stop(UndecodableMark) else if mark.value == endMark then Found else Skip(next)
      else if Bit(flags, FLAG_DISCARD) then Stop(DiscardEntry)
      else if HasUnsupported(flags) then Stop(UnsupportedFlags)
      else if number == 0 then Skip(next)
      else
        var size, offset := number * sectorSize, sector * sectorSize;
        if offset + size > imageSize then Stop(WriteExceedsImage)
        else
          var data := ReadAt(log, next, size);
          if |data| != size then Stop(TruncatedData) else Data(Write(offset, data), number, next + size)
  }

  predicate Fits(w: Write, imageSize: nat) { w.offset + |w.data| <= imageSize }

  predicate Covers(w: Write, i: nat) { w.offset <= i < w.offset + |w.data| }

  /** One write at its offset; the image keeps its length. */
  function Put(image: seq<Byte>, w: Write): (r: seq<Byte>)
    ensures |r| == |image|
  {
    seq(|image|, i requires 0 <= i < |image| => if Covers(w, i) then w.data[i - w.offset] else image[i])
  }

  function PutAll(image: seq<Byte>, ws: seq<Write>): (r: seq<Byte>)
    ensures |r| == |image|
  {
    if ws == [] then image else Put(PutAll(image, ws[..|ws| - 1]), ws[|ws| - 1])
  }

  /** What a scan of the log finds before it stops: why it stops (`None` at the end mark), how many entries and
      sectors it went through, and the writes on the way. */
  datatype Scan = Scan(error: Option<Error>, entries: nat, sectors: nat, writes: seq<Write>)

  function OutcomeOf(scan: Scan): Outcome {
    if scan.error.Some? then Failed(scan.error.value) else Replayed(scan.entries, |scan.writes|, scan.sectors)
  }

  /** The entry found at each position of the log. */
  type Parser = nat -> Item

  /** The scan from `pos` with `left` entries to go. */
  function ScanFrom(parse: Parser, pos: nat, left: nat): Scan
    decreases left
  {
    if left == 0 then Scan(Some(MarkNotFound), 0, 0, [])
    else
      match parse(pos)
      case Stop(error) => Scan(Some(error), 1, 0, [])
      case Found => Scan(None, 1, 0, [])
      case Skip(next) =>
        var rest := ScanFrom(parse, next, left - 1);
        rest.(entries := rest.entries + 1)
      case Data(w, number, next) =>
        var rest := ScanFrom(parse, next, left - 1);
        Scan(rest.error, rest.entries + 1, rest.sectors + number, [w] + rest.writes)
  }

  function EntryParser(log: seq<Byte>, sectorSize: nat, imageSize: nat, endMark: string, decode: Decoder): Parser
    requires sectorSize >= ENTRY_SIZE
  {
    (pos: nat) => ParseAt(log, pos, sectorSize, imageSize, endMark, decode)
  }

  /** The whole log: super block, then the entries from the second sector on. */
  function ScanLog(log: seq<Byte>, imageSize: nat, endMark: string, decode: Decoder): Scan {
    if |log| < SUPER_SIZE then Scan(Some(TruncatedHeader), 0, 0, [])
    else
      var super := UnpackSuper(log[..SUPER_SIZE]);
      if super.magic != MAGIC || super.version != VERSION then Scan(Some(UnsupportedHeader), 0, 0, [])
      else if super.sectorSize < ENTRY_SIZE || !PowerOfTwo(super.sectorSize)
      then Scan(Some(InvalidSectorSize), 0, 0, [])
      else ScanFrom(EntryParser(log, super.sectorSize, imageSize, endMark, decode), super.sectorSize, super.count)
  }

  // ---- The replay program -----------------------------------------------------------------------

  lemma PutAllSnoc(image: seq<Byte>, ws: seq<Write>, w: Write)
    ensures PutAll(image, ws + [w]) == Put(PutAll(image, ws), w)
  {
    assert (ws + [w])[..|ws|] == ws;
  }

  /** `done`, `entries` and `sectors` are what the scan went through before reaching `rest`. */
  predicate Splits(whole: Scan, rest: Scan, entries: nat, sectors: nat, done: seq<Write>) {
    && whole.error == rest.error && whole.entries == entries + rest.entries
    && whole.sectors == sectors + rest.sectors && whole.writes == done + rest.writes
  }

  lemma SplitsAdvance(parse: Parser, pos: nat, left: nat, whole: Scan, entries: nat, sectors: nat, done: seq<Write>)
    requires left > 0 && Splits(whole, ScanFrom(parse, pos, left), entries, sectors, done)
    ensures match parse(pos)
            case Stop(error) => whole.error == Some(error) && whole.writes == done
            case Found => whole == Scan(None, entries + 1, sectors, done)
            case Skip(next) => Splits(whole, ScanFrom(parse, next, left - 1), entries + 1, sectors, done)
            case Data(w, number, next) =>
              Splits(whole, ScanFrom(parse, next, left - 1), entries + 1, sectors + number, done + [w])
  {
    assert done + [] == done;
    if parse(pos).Data? {
      var rest := ScanFrom(parse, parse(pos).next, left - 1);
      assert done + ([parse(pos).write] + rest.writes) == (done + [parse(pos).write]) + rest.writes;
    }
  }

  method WriteImage(image: array<Byte>, w: Write)
    requires Fits(w, image.Length)
    modifies image
    ensures image[..] == Put(old(image[..]), w)
  {
    var i := 0;
    while i < |w.data|
      invariant 0 <= i <= |w.data|
      invariant forall j :: 0 <= j < image.Length ==>
                  image[j] == if w.offset <= j < w.offset + i then w.data[j - w.offset] else old(image[j])
    {
      image[w.offset + i] := w.data[i];
      i := i + 1;
    }
  }

  /** `replay`: the image is overwritten in place.  Success or failure, it ends up holding exactly the writes that the
      scan found before stopping. */
  method Replay(log: seq<Byte>, image: array<Byte>, endMark: string, decode: Decoder) returns (outcome: Outcome)
    modifies image
    ensures outcome == OutcomeOf(ScanLog(log, image.Length, endMark, decode))
    ensures image[..] == PutAll(old(image[..]), ScanLog(log, image.Length, endMark, decode).writes)
  {
    if |log| < SUPER_SIZE {
      return Failed(TruncatedHeader);
    }
    var super := UnpackSuper(log[..SUPER_SIZE]);
    if super.magic != MAGIC || super.version != VERSION {
      return Failed(UnsupportedHeader);
    }
    if super.sectorSize < ENTRY_SIZE || !PowerOfTwo(super.sectorSize) {
      return Failed(InvalidSectorSize);
    }
    var parse := EntryParser(log, super.sectorSize, image.Length, endMark, decode);
    EntriesFit(log, super.sectorSize, image.Length, endMark, decode);
    outcome := ReplayEntries(parse, image, super.sectorSize, super.count);
  }

  /** Every write the parser accepts lies inside the image. */
  ghost predicate ParsesInside(parse: Parser, imageSize: nat) {
    forall pos: nat :: parse(pos).Data? ==> Fits(parse(pos).write, imageSize)
  }

  lemma EntriesFit(log: seq<Byte>, sectorSize: nat, imageSize: nat, endMark: string, decode: Decoder)
    requires sectorSize >= ENTRY_SIZE
    ensures ParsesInside(EntryParser(log, sectorSize, imageSize, endMark, decode), imageSize)
  {
  }

  method ReplayEntries(parse: Parser, image: array<Byte>, start: nat, count: nat) returns (outcome: Outcome)
    requires ParsesInside(parse, image.Length)
    modifies image
    ensures outcome == OutcomeOf(ScanFrom(parse, start, count))
    ensures image[..] == PutAll(old(image[..]), ScanFrom(parse, start, count).writes)
  {
    ghost var original := image[..];
    ghost var whole := ScanFrom(parse, start, count);
    ghost var done: seq<Write> := [];
    var pos, entries, writes, sectors := start, 0, 0, 0;
    for k := 0 to count
      invariant image[..] == PutAll(original, done) && writes == |done|
      invariant Splits(whole, ScanFrom(parse, pos, count - k), entries, sectors, done)
    {
      SplitsAdvance(parse, pos, count - k, whole, entries, sectors, done);
      entries := entries + 1;
      match parse(pos) {
        case Stop(error) => return Failed(error);
        case Found => return Replayed(entries, writes, sectors);
        case Skip(next) => pos := next;
        case Data(w, number, next) =>
          WriteImage(image, w);
          PutAllSnoc(original, done, w);
          done := done + [w];
          pos, writes, sectors := next, writes + 1, sectors + number;
      }
    }
    assert done + [] == done;
    return Failed(MarkNotFound);
  }

  // ---- What the image holds ----------------------------------------------------------------------

  predicate AllFit(ws: seq<Write>, imageSize: nat) { forall k :: 0 <= k < |ws| ==> Fits(ws[k], imageSize) }

  /** The writes a scan finds lie inside the image. */
  lemma {:induction false} ScanFits(parse: Parser, pos: nat, left: nat, imageSize: nat)
    requires ParsesInside(parse, imageSize)
    ensures AllFit(ScanFrom(parse, pos, left).writes, imageSize)
    decreases left
  {
    if left > 0 {
      match parse(pos) {
        case Skip(next) => ScanFits(parse, next, left - 1, imageSize);
        case Data(w, number, next) => ScanFits(parse, next, left - 1, imageSize);
        case _ =>
      }
    }
  }

  lemma ScanLogFits(log: seq<Byte>, imageSize: nat, endMark: string, decode: Decoder)
    ensures AllFit(ScanLog(log, imageSize, endMark, decode).writes, imageSize)
  {
    if |log| >= SUPER_SIZE && UnpackSuper(log[..SUPER_SIZE]).sectorSize >= ENTRY_SIZE {
      var super := UnpackSuper(log[..SUPER_SIZE]);
      EntriesFit(log, super.sectorSize, imageSize, endMark, decode);
      ScanFits(EntryParser(log, super.sectorSize, imageSize, endMark, decode), super.sectorSize, super.count,
          imageSize);
    }
  }

  /** Last write wins: a byte holds the data of the last write that covers it, and its original value if none does. */
  lemma {:induction false} LastWriteWins(image: seq<Byte>, ws: seq<Write>, i: nat, last: int)
    requires AllFit(ws, |image|) && i < |image|
    requires -1 <= last < |ws| && (last >= 0 ==> Covers(ws[last], i))
    requires forall k :: last < k < |ws| ==> !Covers(ws[k], i)
    ensures PutAll(image, ws)[i] == if last >= 0 then ws[last].data[i - ws[last].offset] else image[i]
  {
    if ws != [] && last < |ws| - 1 {
      LastWriteWins(image, ws[..|ws| - 1], i, last);
    }
  }

  /** Replaying over an image that differs from the original only where the log writes gives the same image. */
  lemma {:induction false} ReplayForgetsOverwritten(image: seq<Byte>, image': seq<Byte>, ws: seq<Write>)
    requires AllFit(ws, |image|) && |image'| == |image|
    requires forall i :: 0 <= i < |image| && (forall k :: 0 <= k < |ws| ==> !Covers(ws[k], i)) ==> image'[i] == image[i]
    ensures PutAll(image', ws) == PutAll(image, ws)
  {
    forall i | 0 <= i < |image| ensures PutAll(image', ws)[i] == PutAll(image, ws)[i] {
      var last := LastCover(ws, i);
      LastWriteWins(image, ws, i, last);
      LastWriteWins(image', ws, i, last);
    }
  }

  function LastCover(ws: seq<Write>, i: nat): (last: int)
    ensures -1 <= last < |ws| && (last >= 0 ==> Covers(ws[last], i))
    ensures forall k :: last < k < |ws| ==> !Covers(ws[k], i)
  {
    if ws == [] then -1
    else if Covers(ws[|ws| - 1], i) then |ws| - 1
    else LastCover(ws[..|ws| - 1], i)
  }

  /** Restartable: for every log, well formed or not, replaying over an image that already holds any first part of the
      writes ends with the same outcome and the same image as replaying over the untouched one. */
  lemma ReplayIsRestartable(log: seq<Byte>, image: seq<Byte>, endMark: string, decode: Decoder, k: nat)
    requires k <= |ScanLog(log, |image|, endMark, decode).writes|
    ensures var scan := ScanLog(log, |image|, endMark, decode);
            var partial := PutAll(image, scan.writes[..k]);
            && ScanLog(log, |partial|, endMark, decode) == scan
            && PutAll(partial, scan.writes) == PutAll(image, scan.writes)
  {
    var ws := ScanLog(log, |image|, endMark, decode).writes;
    ScanLogFits(log, |image|, endMark, decode);
    PartialReplayIsForgotten(image, ws, k);
  }

  lemma PartialReplayIsForgotten(image: seq<Byte>, ws: seq<Write>, k: nat)
    requires AllFit(ws, |image|) && k <= |ws|
    ensures |PutAll(image, ws[..k])| == |image| && PutAll(PutAll(image, ws[..k]), ws) == PutAll(image, ws)
  {
    var partial := PutAll(image, ws[..k]);
    forall i | 0 <= i < |image| && (forall j :: 0 <= j < |ws| ==> !Covers(ws[j], i)) ensures partial[i] == image[i] {
      LastWriteWins(image, ws[..k], i, -1);
    }
    ReplayForgetsOverwritten(image, partial, ws);
  }

  // ---- Encoded logs ------------------------------------------------------------------------------

  /** One logged entry: the four header fields, the rest of its block, and its data sectors. */
  datatype Entry = Entry(sector: nat, number: nat, flags: nat, dataLen: nat, tail: seq<Byte>, data: seq<Byte>)

  predicate IsMark(e: Entry) { Bit(e.flags, FLAG_MARK) }

  function MarkText(e: Entry, decode: Decoder): Option<string> {
    if e.dataLen <= |e.tail| then decode(e.tail[..e.dataLen]) else None
  }

  /** What the logger writes: marks with decodable text, data entries inside the device and without discards. */
  predicate WellLogged(e: Entry, sectorSize: nat, imageSize: nat, decode: Decoder)
    requires sectorSize >= ENTRY_SIZE
  {
    && e.sector < Pow256(8) && e.number < Pow256(8) && e.flags < Pow256(8) && e.dataLen < Pow256(8)
    && |e.tail| == sectorSize - ENTRY_SIZE
    && if IsMark(e) then 0 < e.dataLen <= |e.tail| && MarkText(e, decode).Some? && e.data == []
       else
         && !HasUnsupported(e.flags)
         && |e.data| == e.number * sectorSize
         && (e.number > 0 ==> e.sector * sectorSize + |e.data| <= imageSize)
  }

  predicate AllWellLogged(es: seq<Entry>, sectorSize: nat, imageSize: nat, decode: Decoder)
    requires sectorSize >= ENTRY_SIZE
  {
    es == [] || (WellLogged(es[0], sectorSize, imageSize, decode)
        && AllWellLogged(es[1..], sectorSize, imageSize, decode))
  }

  function EntryHeader(e: Entry): (r: seq<Byte>)
    ensures |r| == ENTRY_SIZE
  {
    Encode(e.sector, 8) + Encode(e.number, 8) + Encode(e.flags, 8) + Encode(e.dataLen, 8)
  }

  function EncodeEntry(e: Entry): seq<Byte> { EntryHeader(e) + e.tail + e.data }

  function EncodeEntries(es: seq<Entry>): seq<Byte> {
    if es == [] then [] else EncodeEntry(es[0]) + EncodeEntries(es[1..])
  }

  function EncodeSuper(super: Super): (r: seq<Byte>)
    ensures |r| == SUPER_SIZE
  {
    Encode(super.magic, 8) + Encode(super.version, 8) + Encode(super.count, 8) + Encode(super.sectorSize, 4)
  }

  /** The writes of a list of entries, and how many sectors they cover. */
  function WritesOf(es: seq<Entry>, sectorSize: nat): seq<Write> {
    if es == [] then []
    else if IsMark(es[0]) || es[0].number == 0 then WritesOf(es[1..], sectorSize)
    else [Write(es[0].sector * sectorSize, es[0].data)] + WritesOf(es[1..], sectorSize)
  }

  function SectorsOf(es: seq<Entry>): nat {
    if es == [] then 0 else (if IsMark(es[0]) then 0 else es[0].number) + SectorsOf(es[1..])
  }

  lemma HeaderDecodes(e: Entry)
    requires e.sector < Pow256(8) && e.number < Pow256(8) && e.flags < Pow256(8) && e.dataLen < Pow256(8)
    ensures var h := EntryHeader(e);
            && Decode(h[0..8]) == e.sector && Decode(h[8..16]) == e.number
            && Decode(h[16..24]) == e.flags && Decode(h[24..32]) == e.dataLen
  {
    var h := EntryHeader(e);
    assert h[0..8] == Encode(e.sector, 8);
    assert h[8..16] == Encode(e.number, 8);
    assert h[16..24] == Encode(e.flags, 8);
    assert h[24..32] == Encode(e.dataLen, 8);
    RoundTrip(e.sector, 8); RoundTrip(e.number, 8); RoundTrip(e.flags, 8); RoundTrip(e.dataLen, 8);
  }

  /** These bytes stand in the log at this position. */
  predicate At(log: seq<Byte>, pos: nat, bytes: seq<Byte>) {
    pos + |bytes| <= |log| && log[pos..pos + |bytes|] == bytes
  }

  lemma AtSplit(log: seq<Byte>, pos: nat, first: seq<Byte>, second: seq<Byte>)
    requires At(log, pos, first + second)
    ensures At(log, pos, first) && At(log, pos + |first|, second)
  {
    var whole := log[pos..pos + |first + second|];
    assert log[pos..pos + |first|] == whole[..|first|];
    assert log[pos + |first|..pos + |first| + |second|] == whole[|first|..];
  }

  /** The block of an encoded entry is read back whole, and decodes to its fields. */
  lemma BlockReadsBack(log: seq<Byte>, pos: nat, e: Entry, sectorSize: nat, imageSize: nat, decode: Decoder)
    requires sectorSize >= ENTRY_SIZE && WellLogged(e, sectorSize, imageSize, decode) && At(log, pos, EncodeEntry(e))
    ensures ReadAt(log, pos, sectorSize) == EntryHeader(e) + e.tail
    ensures e.data != [] ==> ReadAt(log, pos + sectorSize, |e.data|) == e.data
  {
    AtSplit(log, pos, EntryHeader(e) + e.tail, e.data);
  }

  lemma HeaderFields(e: Entry)
    requires e.sector < Pow256(8) && e.number < Pow256(8) && e.flags < Pow256(8) && e.dataLen < Pow256(8)
    ensures var block := EntryHeader(e) + e.tail;
            && Decode(block[0..8]) == e.sector && Decode(block[8..16]) == e.number
            && Decode(block[16..24]) == e.flags && Decode(block[24..32]) == e.dataLen
  {
    var h := EntryHeader(e);
    var block := h + e.tail;
    HeaderDecodes(e);
    assert block[0..8] == h[0..8] && block[8..16] == h[8..16] && block[16..24] == h[16..24]
        && block[24..32] == h[24..32];
  }

  function ItemOf(e: Entry, sectorSize: nat, next: nat, endMark: string, decode: Decoder): Item {
    if IsMark(e) then (if MarkText(e, decode) == Some(endMark) then Found else Skip(next))
    else if e.number == 0 then Skip(next)
    else Data(Write(e.sector * sectorSize, e.data), e.number, next)
  }

  /** Parsing an encoded entry gives back what was logged. */
  lemma EntryParses(log: seq<Byte>, pos: nat, e: Entry, sectorSize: nat, imageSize: nat, endMark: string,
          decode: Decoder)
    requires sectorSize >= ENTRY_SIZE && WellLogged(e, sectorSize, imageSize, decode) && At(log, pos, EncodeEntry(e))
    ensures ParseAt(log, pos, sectorSize, imageSize, endMark, decode)
         == ItemOf(e, sectorSize, pos + |EncodeEntry(e)|, endMark, decode)
  {
    if IsMark(e) {
      MarkParses(log, pos, e, sectorSize, imageSize, endMark, decode);
    } else {
      DataParses(log, pos, e, sectorSize, imageSize, endMark, decode);
    }
  }

  lemma MarkParses(log: seq<Byte>, pos: nat, e: Entry, sectorSize: nat, imageSize: nat, endMark: string,
          decode: Decoder)
    requires sectorSize >= ENTRY_SIZE && WellLogged(e, sectorSize, imageSize, decode) && At(log, pos, EncodeEntry(e))
    requires IsMark(e)
    ensures ParseAt(log, pos, sectorSize, imageSize, endMark, decode)
         == ItemOf(e, sectorSize, pos + |EncodeEntry(e)|, endMark, decode)
  {
    BlockReadsBack(log, pos, e, sectorSize, imageSize, decode);
    HeaderFields(e);
    assert (EntryHeader(e) + e.tail)[ENTRY_SIZE..ENTRY_SIZE + e.dataLen] == e.tail[..e.dataLen];
  }

  lemma DataParses(log: seq<Byte>, pos: nat, e: Entry, sectorSize: nat, imageSize: nat, endMark: string,
          decode: Decoder)
    requires sectorSize >= ENTRY_SIZE && WellLogged(e, sectorSize, imageSize, decode) && At(log, pos, EncodeEntry(e))
    requires !IsMark(e)
    ensures ParseAt(log, pos, sectorSize, imageSize, endMark, decode)
         == ItemOf(e, sectorSize, pos + |EncodeEntry(e)|, endMark, decode)
  {
    BlockReadsBack(log, pos, e, sectorSize, imageSize, decode);
    HeaderFields(e);
    if e.number > 0 { ProductAtLeast(e.number, sectorSize); }
  }

  lemma ProductAtLeast(number: nat, size: nat)
    requires number > 0
    ensures number * size >= size
  {
    assert number * size == (number - 1) * size + size;
  }

  /** Entry `m` is the first mark with this text. */
  predicate FirstMark(es: seq<Entry>, m: nat, endMark: string, decode: Decoder) {
    && m < |es| && IsMark(es[m]) && MarkText(es[m], decode) == Some(endMark)
    && forall k :: 0 <= k < m && IsMark(es[k]) ==> MarkText(es[k], decode) != Some(endMark)
  }

  /** From `pos` on, the parser finds exactly these entries one after the other. */
  ghost predicate Lists(parse: Parser, pos: nat, es: seq<Entry>, sectorSize: nat, endMark: string, decode: Decoder)
    decreases |es|
  {
    es == [] || (
      var next := pos + |EncodeEntry(es[0])|;
      parse(pos) == ItemOf(es[0], sectorSize, next, endMark, decode)
          && Lists(parse, next, es[1..], sectorSize, endMark, decode))
  }

  /** Wherever the bytes of a well-formed entry stand, the parser finds that entry. */
  ghost predicate Recognizes(parse: Parser, log: seq<Byte>, sectorSize: nat, imageSize: nat, endMark: string,
          decode: Decoder)
    requires sectorSize >= ENTRY_SIZE
  {
    forall pos: nat, e {:trigger At(log, pos, EncodeEntry(e))} ::
      WellLogged(e, sectorSize, imageSize, decode) && At(log, pos, EncodeEntry(e)) ==>
        parse(pos) == ItemOf(e, sectorSize, pos + |EncodeEntry(e)|, endMark, decode)
  }

  lemma EntryParserRecognizes(log: seq<Byte>, sectorSize: nat, imageSize: nat, endMark: string, decode: Decoder)
    requires sectorSize >= ENTRY_SIZE
    ensures Recognizes(EntryParser(log, sectorSize, imageSize, endMark, decode), log, sectorSize, imageSize, endMark,
        decode)
  {
    forall pos: nat, e | WellLogged(e, sectorSize, imageSize, decode) && At(log, pos, EncodeEntry(e))
      ensures EntryParser(log, sectorSize, imageSize, endMark, decode)(pos) ==
          ItemOf(e, sectorSize, pos + |EncodeEntry(e)|, endMark, decode)
    {
      EntryParses(log, pos, e, sectorSize, imageSize, endMark, decode);
    }
  }

  lemma {:induction false} EncodedLists(parse: Parser, log: seq<Byte>, pos: nat, es: seq<Entry>,
                                        sectorSize: nat, imageSize: nat, endMark: string, decode: Decoder)
    requires sectorSize >= ENTRY_SIZE && AllWellLogged(es, sectorSize, imageSize, decode)
    requires Recognizes(parse, log, sectorSize, imageSize, endMark, decode) && At(log, pos, EncodeEntries(es))
    ensures Lists(parse, pos, es, sectorSize, endMark, decode)
    decreases |es|
  {
    if es != [] {
      AtSplit(log, pos, EncodeEntry(es[0]), EncodeEntries(es[1..]));
      EncodedLists(parse, log, pos + |EncodeEntry(es[0])|, es[1..], sectorSize, imageSize, endMark, decode);
    }
  }

  lemma {:induction false} ListedScan(parse: Parser, pos: nat, es: seq<Entry>, m: nat, left: nat, sectorSize: nat,
          endMark: string, decode: Decoder)
    requires Lists(parse, pos, es, sectorSize, endMark, decode)
    requires FirstMark(es, m, endMark, decode) && left > m
    ensures ScanFrom(parse, pos, left) == Scan(None, m + 1, SectorsOf(es[..m]), WritesOf(es[..m], sectorSize))
    decreases m
  {
    if m > 0 {
      FirstMarkTail(es, m, endMark, decode);
      ListedScan(parse, pos + |EncodeEntry(es[0])|, es[1..], m - 1, left - 1, sectorSize, endMark, decode);
      assert es[..m][0] == es[0] && es[..m][1..] == es[1..][..m - 1];
    }
  }

  lemma FirstMarkTail(es: seq<Entry>, m: nat, endMark: string, decode: Decoder)
    requires FirstMark(es, m, endMark, decode) && m > 0
    ensures FirstMark(es[1..], m - 1, endMark, decode)
    ensures !(IsMark(es[0]) && MarkText(es[0], decode) == Some(endMark))
  {
  }

  lemma SuperDecodes(super: Super)
    requires super.magic < Pow256(8) && super.version < Pow256(8) && super.count < Pow256(8)
        && super.sectorSize < Pow256(4)
    ensures UnpackSuper(EncodeSuper(super)) == super
  {
    var h := EncodeSuper(super);
    assert h[0..8] == Encode(super.magic, 8);
    assert h[8..16] == Encode(super.version, 8);
    assert h[16..24] == Encode(super.count, 8);
    assert h[24..28] == Encode(super.sectorSize, 4);
    RoundTrip(super.magic, 8); RoundTrip(super.version, 8); RoundTrip(super.count, 8); RoundTrip(super.sectorSize, 4);
  }

  lemma ConstantsFit()
    ensures MAGIC < Pow256(8) && VERSION < Pow256(8)
  {
    assert Pow256(2) == 65536;
    assert Pow256(4) == 4294967296;
    assert Pow256(6) == 281474976710656;
    assert Pow256(8) == 18446744073709551616;
  }

  /** A log that starts with a super block and continues in its second sector with these entries. */
  predicate Encoded(log: seq<Byte>, es: seq<Entry>, count: nat, sectorSize: nat) {
    && ENTRY_SIZE <= sectorSize < Pow256(4) && PowerOfTwo(sectorSize) && count < Pow256(8)
    && At(log, 0, EncodeSuper(Super(MAGIC, VERSION, count, sectorSize))) && At(log, sectorSize, EncodeEntries(es))
  }

  /** The scan of an encoded log is the scan of its listed entries. */
  lemma EncodedScan(log: seq<Byte>, es: seq<Entry>, count: nat, sectorSize: nat, imageSize: nat, endMark: string,
          decode: Decoder)
    requires Encoded(log, es, count, sectorSize) && AllWellLogged(es, sectorSize, imageSize, decode)
    ensures var parse := EntryParser(log, sectorSize, imageSize, endMark, decode);
            && Lists(parse, sectorSize, es, sectorSize, endMark, decode)
            && ScanLog(log, imageSize, endMark, decode) == ScanFrom(parse, sectorSize, count)
  {
    ConstantsFit();
    SuperDecodes(Super(MAGIC, VERSION, count, sectorSize));
    assert log[..SUPER_SIZE] == log[0..SUPER_SIZE];
    EntryParserRecognizes(log, sectorSize, imageSize, endMark, decode);
    EncodedLists(EntryParser(log, sectorSize, imageSize, endMark, decode), log, sectorSize, es, sectorSize, imageSize,
        endMark, decode);
  }

  /** For every log that starts with a super block and continues in its second sector with well-formed entries up to
      the first matching mark, replay stops at that mark, reports the true entry, write and sector totals, applies
      exactly the writes before it, and ignores everything after it, whatever those bytes are. */
  lemma EncodedLogReplays(log: seq<Byte>, es: seq<Entry>, m: nat, count: nat, sectorSize: nat, imageSize: nat,
          endMark: string, decode: Decoder)
    requires Encoded(log, es, count, sectorSize) && AllWellLogged(es, sectorSize, imageSize, decode)
    requires FirstMark(es, m, endMark, decode) && m < count
    ensures var scan := ScanLog(log, imageSize, endMark, decode);
            && scan.writes == WritesOf(es[..m], sectorSize)
            && OutcomeOf(scan) == Replayed(m + 1, |WritesOf(es[..m], sectorSize)|, SectorsOf(es[..m]))
  {
    var parse := EntryParser(log, sectorSize, imageSize, endMark, decode);
    EncodedScan(log, es, count, sectorSize, imageSize, endMark, decode);
    ListedScan(parse, sectorSize, es, m, count, sectorSize, endMark, decode);
  }

  // ---- Logs without the mark -----------------------------------------------------------------------

  /** None of the entries is a mark with this text. */
  predicate NoMark(es: seq<Entry>, endMark: string, decode: Decoder) {
    forall k :: 0 <= k < |es| && IsMark(es[k]) ==> MarkText(es[k], decode) != Some(endMark)
  }

  /** The scan goes through listed entries without the mark and on to what follows them. */
  lemma {:induction false} ListedPrefix(parse: Parser, pos: nat, es: seq<Entry>, left: nat, sectorSize: nat,
          endMark: string, decode: Decoder)
    requires Lists(parse, pos, es, sectorSize, endMark, decode) && NoMark(es, endMark, decode) && left >= |es|
    ensures Splits(ScanFrom(parse, pos, left), ScanFrom(parse, pos + |EncodeEntries(es)|, left - |es|), |es|,
                   SectorsOf(es), WritesOf(es, sectorSize))
    decreases |es|
  {
    var rest := ScanFrom(parse, pos + |EncodeEntries(es)|, left - |es|);
    if es == [] {
      assert [] + rest.writes == rest.writes;
    } else {
      var next := pos + |EncodeEntry(es[0])|;
      ListedPrefix(parse, next, es[1..], left - 1, sectorSize, endMark, decode);
      assert pos + |EncodeEntries(es)| == next + |EncodeEntries(es[1..])|;
      assert parse(pos) == ItemOf(es[0], sectorSize, next, endMark, decode);
      if parse(pos).Data? {
        Assoc([parse(pos).write], WritesOf(es[1..], sectorSize), rest.writes);
      }
    }
  }

  /** A bad entry after them stops it. */
  lemma ListedBad(parse: Parser, pos: nat, es: seq<Entry>, left: nat, sectorSize: nat, endMark: string,
          decode: Decoder, e: Error)
    requires Lists(parse, pos, es, sectorSize, endMark, decode) && NoMark(es, endMark, decode) && left > |es|
    requires parse(pos + |EncodeEntries(es)|) == Stop(e)
    ensures ScanFrom(parse, pos, left).error == Some(e)
    ensures ScanFrom(parse, pos, left).writes == WritesOf(es, sectorSize)
  {
    ListedPrefix(parse, pos, es, left, sectorSize, endMark, decode);
    assert WritesOf(es, sectorSize) + [] == WritesOf(es, sectorSize);
  }

  lemma {:induction false} ListsPrefix(parse: Parser, pos: nat, es: seq<Entry>, k: nat, sectorSize: nat,
          endMark: string, decode: Decoder)
    requires Lists(parse, pos, es, sectorSize, endMark, decode) && k <= |es|
    ensures Lists(parse, pos, es[..k], sectorSize, endMark, decode)
    decreases k
  {
    if k > 0 {
      ListsPrefix(parse, pos + |EncodeEntry(es[0])|, es[1..], k - 1, sectorSize, endMark, decode);
      assert es[..k][0] == es[0] && es[..k][1..] == es[1..][..k - 1];
    }
  }

  /** When the entries run out before the mark, replay fails, and the image holds all their writes. */
  lemma EncodedLogWithoutMark(log: seq<Byte>, es: seq<Entry>, count: nat, sectorSize: nat, imageSize: nat,
          endMark: string, decode: Decoder)
    requires Encoded(log, es, count, sectorSize) && AllWellLogged(es, sectorSize, imageSize, decode)
    requires count <= |es| && NoMark(es[..count], endMark, decode)
    ensures var scan := ScanLog(log, imageSize, endMark, decode);
            OutcomeOf(scan) == Failed(MarkNotFound) && scan.writes == WritesOf(es[..count], sectorSize)
  {
    var parse := EntryParser(log, sectorSize, imageSize, endMark, decode);
    EncodedScan(log, es, count, sectorSize, imageSize, endMark, decode);
    ListsPrefix(parse, sectorSize, es, count, sectorSize, endMark, decode);
    ListedPrefix(parse, sectorSize, es[..count], count, sectorSize, endMark, decode);
    assert WritesOf(es[..count], sectorSize) + [] == WritesOf(es[..count], sectorSize);
  }

  /** When the parser refuses the entry after them, replay fails with its error, and the image holds the writes before
      it. */
  lemma EncodedLogStops(log: seq<Byte>, es: seq<Entry>, count: nat, sectorSize: nat, imageSize: nat,
          endMark: string, decode: Decoder, e: Error)
    requires Encoded(log, es, count, sectorSize) && AllWellLogged(es, sectorSize, imageSize, decode)
    requires |es| < count && NoMark(es, endMark, decode)
    requires EntryParser(log, sectorSize, imageSize, endMark, decode)(sectorSize + |EncodeEntries(es)|) == Stop(e)
    ensures var scan := ScanLog(log, imageSize, endMark, decode);
            OutcomeOf(scan) == Failed(e) && scan.writes == WritesOf(es, sectorSize)
  {
    var parse := EntryParser(log, sectorSize, imageSize, endMark, decode);
    EncodedScan(log, es, count, sectorSize, imageSize, endMark, decode);
    ListedBad(parse, sectorSize, es, count, sectorSize, endMark, decode, e);
  }
}
