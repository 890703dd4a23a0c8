/** How replay ends for every log, well formed or not, read off the bytes of the log. */
module DmLogOutcome {
  import opened Prelude
  import opened LittleEndian
  import opened DmLogReplay

  // ---- Reading the log by hand -----------------------------------------------------------------------

  /** One of the four fields of the block at a position. */
  function Field(log: seq<Byte>, pos: nat, k: nat): nat
    requires pos + 8 * k + 8 <= |log|
  {
    Decode(log[pos + 8 * k..pos + 8 * k + 8])
  }

  /** The layout of a log in sectors of this size; `size` is the size of the image. */
  datatype Setting = Setting(log: seq<Byte>, sector: nat, size: nat, endMark: string, decode: Decoder)

  predicate Fine(s: Setting) { s.sector >= ENTRY_SIZE }

  predicate Whole(s: Setting, pos: nat) { pos + s.sector <= |s.log| }

  predicate Marks(s: Setting, pos: nat)
    requires Fine(s) && Whole(s, pos)
  {
    Field(s.log, pos, 2) / 8 % 2 == 1
  }

  /** The text of a mark, if it has a valid length and can be decoded. */
  function TextAt(s: Setting, pos: nat): Option<string>
    requires Fine(s) && Whole(s, pos)
  {
    var n := Field(s.log, pos, 3);
    if 0 < n <= s.sector - ENTRY_SIZE then s.decode(s.log[pos + ENTRY_SIZE..pos + ENTRY_SIZE + n]) else None
  }

  /** A mark with the text looked for. */
  predicate EndMarkAt(s: Setting, pos: nat)
    requires Fine(s)
  {
    Whole(s, pos) && Marks(s, pos) && TextAt(s, pos) == Some(s.endMark)
  }

  /** Only the flags for flush, forced unit access and metadata. */
  predicate Supported(flags: nat) { flags in {0, 1, 2, 3, 16, 17, 18, 19} }

  /** An entry with data: supported flags and at least one sector. */
  predicate Writes(s: Setting, pos: nat)
    requires Fine(s) && Whole(s, pos)
  {
    !Marks(s, pos) && Supported(Field(s.log, pos, 2)) && Field(s.log, pos, 1) > 0
  }

  function DataSize(s: Setting, pos: nat): nat
    requires Fine(s) && Whole(s, pos)
  {
    Field(s.log, pos, 1) * s.sector
  }

  /** What is wrong with the entry at a position. */
  predicate Bad(s: Setting, pos: nat, e: Error)
    requires Fine(s)
  {
    if !Whole(s, pos) then e == TruncatedEntry
    else
      var flags, offset := Field(s.log, pos, 2), Field(s.log, pos, 0) * s.sector;
      match e
      case InvalidMarkLength => Marks(s, pos) && !(0 < Field(s.log, pos, 3) <= s.sector - ENTRY_SIZE)
      case UndecodableMark =>
        Marks(s, pos) && 0 < Field(s.log, pos, 3) <= s.sector - ENTRY_SIZE && TextAt(s, pos) == None
      case DiscardEntry => !Marks(s, pos) && flags / 4 % 2 == 1
      case UnsupportedFlags => !Marks(s, pos) && flags / 4 % 2 == 0 && !Supported(flags)
      case WriteExceedsImage => Writes(s, pos) && offset + DataSize(s, pos) > s.size
      case TruncatedData =>
        Writes(s, pos) && offset + DataSize(s, pos) <= s.size && pos + s.sector + DataSize(s, pos) > |s.log|
      case _ => false
  }

  /** An entry that is gone through. */
  predicate Passable(s: Setting, pos: nat)
    requires Fine(s)
  {
    (forall e :: !Bad(s, pos, e)) && !EndMarkAt(s, pos)
  }

  /** Where the next entry starts, and what is written on the way. */
  function After(s: Setting, pos: nat): nat
    requires Fine(s)
  {
    pos + s.sector + if Whole(s, pos) && Writes(s, pos) then DataSize(s, pos) else 0
  }

  function WriteAt(s: Setting, pos: nat): seq<Write>
    requires Fine(s)
  {
    if Whole(s, pos) && Writes(s, pos) && After(s, pos) <= |s.log|
    then [Write(Field(s.log, pos, 0) * s.sector, s.log[pos + s.sector..After(s, pos)])]
    else []
  }

  function SectorsAt(s: Setting, pos: nat): nat
    requires Fine(s)
  {
    if Whole(s, pos) && Writes(s, pos) then Field(s.log, pos, 1) else 0
  }

  /** Where the k-th entry from a position starts. */
  function Nth(s: Setting, pos: nat, k: nat): nat
    requires Fine(s)
    decreases k
  {
    if k == 0 then pos else Nth(s, After(s, pos), k - 1)
  }

  function WritesBefore(s: Setting, pos: nat, k: nat): seq<Write>
    requires Fine(s)
    decreases k
  {
    if k == 0 then [] else WriteAt(s, pos) + WritesBefore(s, After(s, pos), k - 1)
  }

  function SectorsBefore(s: Setting, pos: nat, k: nat): nat
    requires Fine(s)
    decreases k
  {
    if k == 0 then 0 else SectorsAt(s, pos) + SectorsBefore(s, After(s, pos), k - 1)
  }

  ghost predicate AllPassable(s: Setting, pos: nat, k: nat)
    requires Fine(s)
  {
    forall i: nat :: i < k ==> Passable(s, Nth(s, pos, i))
  }

  // ---- One entry ---------------------------------------------------------------------------------------

  function ParserOf(s: Setting): Parser
    requires Fine(s)
  {
    EntryParser(s.log, s.sector, s.size, s.endMark, s.decode)
  }

  lemma SupportedIff(flags: nat)
    ensures Supported(flags) <==> !HasUnsupported(flags)
  {
    if flags / 32 == 0 { assert flags < 32; }
  }

  lemma BlockFields(s: Setting, pos: nat)
    requires Fine(s) && Whole(s, pos)
    ensures ReadAt(s.log, pos, s.sector) == s.log[pos..pos + s.sector]
    ensures var block := s.log[pos..pos + s.sector];
            && Decode(block[0..8]) == Field(s.log, pos, 0) && Decode(block[8..16]) == Field(s.log, pos, 1)
            && Decode(block[16..24]) == Field(s.log, pos, 2) && Decode(block[24..32]) == Field(s.log, pos, 3)
  {
    var block := s.log[pos..pos + s.sector];
    assert block[0..8] == s.log[pos..pos + 8];
    assert block[8..16] == s.log[pos + 8..pos + 16];
    assert block[16..24] == s.log[pos + 16..pos + 24];
    assert block[24..32] == s.log[pos + 24..pos + 32];
  }

  /** What the parser finds at a position. */
  ghost predicate Finds(s: Setting, pos: nat, item: Item)
    requires Fine(s)
  {
    match item
    case Stop(e) => Bad(s, pos, e)
    case Found => EndMarkAt(s, pos)
    case Skip(next) => Passable(s, pos) && next == After(s, pos) && WriteAt(s, pos) == [] && SectorsAt(s, pos) == 0
    case Data(w, number, next) =>
      Passable(s, pos) && next == After(s, pos) && WriteAt(s, pos) == [w] && SectorsAt(s, pos) == number
  }

  lemma MarkFound(s: Setting, pos: nat)
    requires Fine(s) && Whole(s, pos) && Marks(s, pos)
    ensures Finds(s, pos, ParserOf(s)(pos))
  {
    BlockFields(s, pos);
    var n := Field(s.log, pos, 3);
    if 0 < n <= s.sector - ENTRY_SIZE {
      assert s.log[pos..pos + s.sector][ENTRY_SIZE..ENTRY_SIZE + n] == s.log[pos + ENTRY_SIZE..pos + ENTRY_SIZE + n];
    }
  }

  lemma DataFound(s: Setting, pos: nat)
    requires Fine(s) && Whole(s, pos) && !Marks(s, pos)
    ensures Finds(s, pos, ParserOf(s)(pos))
  {
    BlockFields(s, pos);
    SupportedIff(Field(s.log, pos, 2));
    if Writes(s, pos) {
      ProductAtLeast(Field(s.log, pos, 1), s.sector);
    }
  }

  lemma EntryFound(s: Setting, pos: nat)
    requires Fine(s)
    ensures Finds(s, pos, ParserOf(s)(pos))
  {
    if Whole(s, pos) {
      if Marks(s, pos) { MarkFound(s, pos); } else { DataFound(s, pos); }
    }
  }

  // ---- The scan -----------------------------------------------------------------------------------------

  /** The entry at which a scan of at most `left` entries stops: all before it are gone through. */
  ghost predicate StopsAt(s: Setting, pos: nat, left: nat, m: nat)
    requires Fine(s)
  {
    m <= left && AllPassable(s, pos, m) && (m < left ==> !Passable(s, Nth(s, pos, m)))
  }

  lemma PassableTail(s: Setting, pos: nat, m: nat)
    requires Fine(s) && m > 0
    ensures AllPassable(s, pos, m) <==> Passable(s, pos) && AllPassable(s, After(s, pos), m - 1)
  {
    if AllPassable(s, pos, m) {
      assert Passable(s, Nth(s, pos, 0));
      forall i: nat | i < m - 1 ensures Passable(s, Nth(s, After(s, pos), i)) {
        assert Passable(s, Nth(s, pos, i + 1));
      }
    }
    if Passable(s, pos) && AllPassable(s, After(s, pos), m - 1) {
      forall i: nat | i < m ensures Passable(s, Nth(s, pos, i)) {
        if i > 0 { assert Nth(s, pos, i) == Nth(s, After(s, pos), i - 1); }
      }
    }
  }

  /** Why a scan that stops at the m-th entry stops. */
  ghost predicate Because(s: Setting, pos: nat, left: nat, m: nat, error: Option<Error>)
    requires Fine(s)
  {
    if m == left then error == Some(MarkNotFound)
    else if error.None? then EndMarkAt(s, Nth(s, pos, m))
    else Bad(s, Nth(s, pos, m), error.value)
  }

  /** The parser finds what stands in the log. */
  ghost predicate Reads(s: Setting, parse: Parser)
    requires Fine(s)
  {
    forall pos: nat {:trigger Finds(s, pos, parse(pos))} :: Finds(s, pos, parse(pos))
  }

  /** Exactly which entries are refused, and with which error. */
  lemma RefusedIff(s: Setting, pos: nat, e: Error)
    requires Fine(s)
    ensures ParserOf(s)(pos) == Stop(e) <==> Bad(s, pos, e)
  {
    EntryFound(s, pos);
    if Bad(s, pos, e) { BadOnce(s, pos, e); }
  }

  lemma ParserReads(s: Setting)
    requires Fine(s)
    ensures Reads(s, ParserOf(s))
  {
    forall pos: nat ensures Finds(s, pos, ParserOf(s)(pos)) { EntryFound(s, pos); }
  }

  /** A scan stops at the m-th entry, for the reason that stands there, having found exactly the writes before it. */
  ghost predicate ScanIs(s: Setting, pos: nat, left: nat, m: nat, scan: Scan)
    requires Fine(s)
  {
    && StopsAt(s, pos, left, m) && Because(s, pos, left, m, scan.error)
    && scan.entries == (if m == left then m else m + 1)
    && scan.writes == WritesBefore(s, pos, m) && scan.sectors == SectorsBefore(s, pos, m)
  }

  lemma ScanRunsOut(s: Setting, parse: Parser, pos: nat)
    requires Fine(s)
    ensures ScanIs(s, pos, 0, 0, ScanFrom(parse, pos, 0))
  {
  }

  /** At once. */
  lemma ScanStopsHere(s: Setting, parse: Parser, pos: nat, left: nat)
    requires Fine(s) && Reads(s, parse) && left > 0 && (parse(pos).Stop? || parse(pos).Found?)
    ensures ScanIs(s, pos, left, 0, ScanFrom(parse, pos, left))
  {
    assert Finds(s, pos, parse(pos));
    assert Nth(s, pos, 0) == pos;
    assert !Passable(s, pos);
  }

  /** Or after an entry that is gone through. */
  lemma ScanStopsLater(s: Setting, pos: nat, left: nat, m: nat, rest: Scan, scan: Scan)
    requires Fine(s) && left > 0 && Passable(s, pos) && ScanIs(s, After(s, pos), left - 1, m, rest)
    requires scan == Scan(rest.error, rest.entries + 1, rest.sectors + SectorsAt(s, pos),
                          WriteAt(s, pos) + rest.writes)
    ensures ScanIs(s, pos, left, m + 1, scan)
  {
    PassableTail(s, pos, m + 1);
    assert Nth(s, pos, m + 1) == Nth(s, After(s, pos), m);
  }

  lemma ScanGoesOn(s: Setting, parse: Parser, pos: nat, left: nat)
    requires Fine(s) && Reads(s, parse) && left > 0 && (parse(pos).Skip? || parse(pos).Data?)
    ensures Passable(s, pos)
    ensures var rest := ScanFrom(parse, After(s, pos), left - 1);
            ScanFrom(parse, pos, left) ==
              Scan(rest.error, rest.entries + 1, rest.sectors + SectorsAt(s, pos), WriteAt(s, pos) + rest.writes)
  {
    assert Finds(s, pos, parse(pos));
    var rest := ScanFrom(parse, After(s, pos), left - 1);
    assert [] + rest.writes == rest.writes;
  }

  lemma {:induction false} ScanStops(s: Setting, parse: Parser, pos: nat, left: nat) returns (m: nat)
    requires Fine(s) && Reads(s, parse)
    ensures ScanIs(s, pos, left, m, ScanFrom(parse, pos, left))
    decreases left
  {
    if left == 0 {
      m := 0;
      ScanRunsOut(s, parse, pos);
    } else if parse(pos).Stop? || parse(pos).Found? {
      m := 0;
      ScanStopsHere(s, parse, pos, left);
    } else {
      ScanGoesOn(s, parse, pos, left);
      var n := ScanStops(s, parse, After(s, pos), left - 1);
      ScanStopsLater(s, pos, left, n, ScanFrom(parse, After(s, pos), left - 1), ScanFrom(parse, pos, left));
      m := n + 1;
    }
  }

  lemma StopsAtOne(s: Setting, pos: nat, left: nat, m: nat, n: nat)
    requires Fine(s) && StopsAt(s, pos, left, m) && StopsAt(s, pos, left, n)
    ensures m == n
  {
  }

  /** No entry is bad in two ways, or both bad and the end mark. */
  lemma BadOnce(s: Setting, pos: nat, e: Error)
    requires Fine(s) && Bad(s, pos, e)
    ensures !EndMarkAt(s, pos) && forall f :: Bad(s, pos, f) ==> f == e
  {
  }

  // ---- The whole log -----------------------------------------------------------------------------------

  function Pow2(k: nat): nat { if k == 0 then 1 else 2 * Pow2(k - 1) }

  lemma {:induction false} PowerOfTwoIs(n: nat) returns (k: nat)
    requires PowerOfTwo(n)
    ensures n == Pow2(k)
  {
    if n == 1 {
      k := 0;
    } else {
      var j := PowerOfTwoIs(n / 2);
      k := j + 1;
    }
  }

  lemma {:induction false} Pow2IsPowerOfTwo(k: nat)
    ensures Pow2(k) > 0 && PowerOfTwo(Pow2(k))
  {
    if k > 0 {
      Pow2IsPowerOfTwo(k - 1);
      assert Pow2(k) / 2 == Pow2(k - 1) && Pow2(k) % 2 == 0;
    }
  }

  ghost predicate SectorSizeOk(n: nat) { n >= ENTRY_SIZE && exists k :: n == Pow2(k) }

  lemma SectorSizeIff(n: nat)
    ensures SectorSizeOk(n) <==> n >= ENTRY_SIZE && PowerOfTwo(n)
  {
    if PowerOfTwo(n) { var k := PowerOfTwoIs(n); }
    if k: nat :| n == Pow2(k) { Pow2IsPowerOfTwo(k); }
  }

  /** The first 28 bytes: the magic number, version 1, the number of entries and the sector size. */
  predicate Recognized(log: seq<Byte>) {
    |log| >= SUPER_SIZE && Field(log, 0, 0) == 0x6A736677736872 && Field(log, 0, 1) == 1
  }

  function SectorSize(log: seq<Byte>): nat
    requires |log| >= SUPER_SIZE
  {
    Decode(log[24..28])
  }

  function SettingOf(log: seq<Byte>, size: nat, endMark: string, decode: Decoder): Setting
    requires |log| >= SUPER_SIZE
  {
    Setting(log, SectorSize(log), size, endMark, decode)
  }

  /** What each outcome of a replay says about the log.  The entries start at the second sector. */
  ghost predicate Says(o: Outcome, log: seq<Byte>, size: nat, endMark: string, decode: Decoder) {
    if |log| < SUPER_SIZE then o == Failed(TruncatedHeader)
    else if !Recognized(log) then o == Failed(UnsupportedHeader)
    else if !SectorSizeOk(SectorSize(log)) then o == Failed(InvalidSectorSize)
    else
      var s, start, count := SettingOf(log, size, endMark, decode), SectorSize(log), Field(log, 0, 2);
      match o
      case Replayed(entries, writes, sectors) =>
        && 0 < entries <= count && AllPassable(s, start, entries - 1) && EndMarkAt(s, Nth(s, start, entries - 1))
        && writes == |WritesBefore(s, start, entries - 1)| && sectors == SectorsBefore(s, start, entries - 1)
      case Failed(e) =>
        if e == MarkNotFound then AllPassable(s, start, count)
        else exists m: nat :: m < count && AllPassable(s, start, m) && Bad(s, Nth(s, start, m), e)
  }

  lemma HeaderFields(log: seq<Byte>)
    requires |log| >= SUPER_SIZE
    ensures UnpackSuper(log[..SUPER_SIZE]) ==
              Super(Field(log, 0, 0), Field(log, 0, 1), Field(log, 0, 2), SectorSize(log))
  {
    var h := log[..SUPER_SIZE];
    assert h[0..8] == log[0..8];
    assert h[8..16] == log[8..16];
    assert h[16..24] == log[16..24];
    assert h[24..28] == log[24..28];
  }

  /** A log whose header is accepted. */
  ghost predicate Accepted(log: seq<Byte>) { Recognized(log) && SectorSizeOk(SectorSize(log)) }

  lemma AcceptedScan(log: seq<Byte>, size: nat, endMark: string, decode: Decoder)
    ensures Accepted(log) ==>
              ScanLog(log, size, endMark, decode) ==
              ScanFrom(ParserOf(SettingOf(log, size, endMark, decode)), SectorSize(log), Field(log, 0, 2))
    ensures !Accepted(log) ==>
              var scan := ScanLog(log, size, endMark, decode);
              Says(OutcomeOf(scan), log, size, endMark, decode) && scan.writes == []
  {
    if |log| >= SUPER_SIZE {
      HeaderFields(log);
      SectorSizeIff(SectorSize(log));
    }
  }

  /** At most one outcome says something true of a log. */
  lemma OneOutcome(o: Outcome, p: Outcome, log: seq<Byte>, size: nat, endMark: string, decode: Decoder)
    requires Says(o, log, size, endMark, decode) && Says(p, log, size, endMark, decode)
    ensures o == p
  {
    if Accepted(log) {
      var m := WhereSaid(o, log, size, endMark, decode);
      var n := WhereSaid(p, log, size, endMark, decode);
      var s, start := SettingOf(log, size, endMark, decode), SectorSize(log);
      StopsAtOne(s, start, Field(log, 0, 2), m, n);
      if o.Failed? && o.error != MarkNotFound { BadOnce(s, Nth(s, start, m), o.error); }
      if p.Failed? && p.error != MarkNotFound { BadOnce(s, Nth(s, start, m), p.error); }
    }
  }

  /** The entry an outcome speaks of. */
  lemma WhereSaid(o: Outcome, log: seq<Byte>, size: nat, endMark: string, decode: Decoder) returns (m: nat)
    requires Accepted(log) && Says(o, log, size, endMark, decode)
    ensures var s, start, count := SettingOf(log, size, endMark, decode), SectorSize(log), Field(log, 0, 2);
            && StopsAt(s, start, count, m)
            && match o
               case Replayed(entries, writes, sectors) =>
                 m + 1 == entries && m < count && EndMarkAt(s, Nth(s, start, m))
                 && writes == |WritesBefore(s, start, m)| && sectors == SectorsBefore(s, start, m)
               case Failed(e) =>
                 if e == MarkNotFound then m == count else m < count && Bad(s, Nth(s, start, m), e)
  {
    var s, start, count := SettingOf(log, size, endMark, decode), SectorSize(log), Field(log, 0, 2);
    match o {
      case Replayed(entries, _, _) => m := entries - 1;
      case Failed(e) =>
        if e == MarkNotFound {
          m := count;
        } else {
          m :| m < count && AllPassable(s, start, m) && Bad(s, Nth(s, start, m), e);
        }
    }
  }

  lemma ScanSays(log: seq<Byte>, size: nat, endMark: string, decode: Decoder, m: nat, scan: Scan)
    requires Accepted(log)
    requires ScanIs(SettingOf(log, size, endMark, decode), SectorSize(log), Field(log, 0, 2), m, scan)
    ensures Says(OutcomeOf(scan), log, size, endMark, decode)
  {
  }

  /** Exactly how the replay of any log ends.  It succeeds only at a mark with the text looked for, every entry before
      which can be gone through; otherwise the first bad entry decides, and without one the mark is missing. */
  lemma OutcomeIff(log: seq<Byte>, size: nat, endMark: string, decode: Decoder, o: Outcome)
    ensures OutcomeOf(ScanLog(log, size, endMark, decode)) == o <==> Says(o, log, size, endMark, decode)
  {
    var scan := ScanLog(log, size, endMark, decode);
    AcceptedScan(log, size, endMark, decode);
    if Accepted(log) {
      var s, start, count := SettingOf(log, size, endMark, decode), SectorSize(log), Field(log, 0, 2);
      ParserReads(s);
      var m := ScanStops(s, ParserOf(s), start, count);
      ScanSays(log, size, endMark, decode, m, scan);
    }
    if Says(o, log, size, endMark, decode) { OneOutcome(o, OutcomeOf(scan), log, size, endMark, decode); }
  }

  /** And exactly what it has written by then: the data of the entries before the one it stops at. */
  lemma WritesAre(log: seq<Byte>, size: nat, endMark: string, decode: Decoder, m: nat)
    requires Accepted(log)
    requires StopsAt(SettingOf(log, size, endMark, decode), SectorSize(log), Field(log, 0, 2), m)
    ensures ScanLog(log, size, endMark, decode).writes ==
              WritesBefore(SettingOf(log, size, endMark, decode), SectorSize(log), m)
  {
    var s, start, count := SettingOf(log, size, endMark, decode), SectorSize(log), Field(log, 0, 2);
    AcceptedScan(log, size, endMark, decode);
    ParserReads(s);
    var n := ScanStops(s, ParserOf(s), start, count);
    StopsAtOne(s, start, count, m, n);
  }
}
