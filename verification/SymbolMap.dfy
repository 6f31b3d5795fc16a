/** Validated backtrace symbol maps: what the parser accepts and what lookup finds in it. The
    text encoding check is a parameter, and sizes are those of a 64-bit target. */
module SymbolMap {
  import opened Bytes
  import opened Numbers
  import opened Options

  type Encoding = seq<Byte> -> bool

  const MAGIC: seq<Byte> := [0x41, 0x58, 0x42, 0x54]
  const VERSION := 1
  const HEADER_LEN := 32
  const RECORD_LEN := 28
  const NO_FILE := 0xFFFF_FFFF

  datatype MapError =
    | TooShort | BadMagic | UnsupportedVersion(version: nat) | UnsupportedArchitecture(raw: Byte)
    | InvalidBuildId | InvalidTextRange | InvalidRecordCount | InvalidRecordRange
    | RecordsNotSorted | InvalidStringOffset | InvalidUtf8

  datatype Record = Record(start: nat, end: nat, nameOffset: nat, fileOffset: nat, line: nat)
  datatype Symbol = Symbol(name: seq<Byte>, file: Option<seq<Byte>>, line: Option<nat>)

  datatype Map = Map(bytes: seq<Byte>, architecture: Byte, textStart: nat, textEnd: nat, buildIdLen: nat,
                     recordsOffset: nat, recordCount: nat, stringsOffset: nat, stringsLen: nat)

  // ---- Reading ----

  function RawRecord(m: Map, i: nat): Option<Record> {
    var offset := m.recordsOffset + i * RECORD_LEN;
    if i >= m.recordCount then None
    else
      match (Read(m.bytes, offset, 8), Read(m.bytes, offset + 8, 8), Read(m.bytes, offset + 16, 4),
             Read(m.bytes, offset + 20, 4), Read(m.bytes, offset + 24, 4))
      case (Some(start), Some(end), Some(name), Some(file), Some(line)) => Some(Record(start, end, name, file, line))
      case _ => None
  }

  function StringAt(m: Map, offset: nat, utf8: Encoding): Option<seq<Byte>>
    requires m.stringsOffset + m.stringsLen <= |m.bytes|
  {
    if offset >= m.stringsLen then None
    else
      var bytes := m.bytes[m.stringsOffset + offset..m.stringsOffset + m.stringsLen];
      match FirstZero(bytes)
      case None => None
      case Some(end) => if utf8(bytes[..end]) then Some(bytes[..end]) else None
  }

  function ValidateString(m: Map, offset: nat, utf8: Encoding): Option<MapError>
    requires m.stringsOffset + m.stringsLen <= |m.bytes|
  {
    if offset >= m.stringsLen then Some(InvalidStringOffset)
    else
      var bytes := m.bytes[m.stringsOffset + offset..m.stringsOffset + m.stringsLen];
      match FirstZero(bytes)
      case None => Some(InvalidStringOffset)
      case Some(end) => if utf8(bytes[..end]) then None else Some(InvalidUtf8)
  }

  /** Validation accepts exactly the strings that will decode. */
  lemma ValidatedStringsDecode(m: Map, offset: nat, utf8: Encoding)
    requires m.stringsOffset + m.stringsLen <= |m.bytes|
    ensures ValidateString(m, offset, utf8) == None <==> StringAt(m, offset, utf8).Some?
  {
  }

  // ---- What a good map is ----

  /** The map a header describes. */
  function Layout(bytes: seq<Byte>): Map
    requires |bytes| >= HEADER_LEN
  {
    var recordsOffset := HEADER_LEN + bytes[7];
    var stringsOffset := recordsOffset + ReadAt(bytes, 24, 4) * RECORD_LEN;
    Map(bytes, bytes[6], ReadAt(bytes, 8, 8), ReadAt(bytes, 16, 8), bytes[7], recordsOffset, ReadAt(bytes, 24, 4),
      stringsOffset, ReadAt(bytes, 28, 4))
  }

  predicate GoodHeader(bytes: seq<Byte>) {
    && |bytes| >= HEADER_LEN
    && bytes[..4] == MAGIC && ReadAt(bytes, 4, 2) == VERSION && 1 <= bytes[6] <= 5 && bytes[7] != 0
    && ReadAt(bytes, 8, 8) < ReadAt(bytes, 16, 8)
    && Layout(bytes).stringsOffset + Layout(bytes).stringsLen == |bytes|
  }

  predicate Framed(m: Map) {
    && m.recordsOffset + m.recordCount * RECORD_LEN == m.stringsOffset
    && m.stringsOffset + m.stringsLen == |m.bytes|
  }

  lemma RecordIsThere(m: Map, i: nat)
    requires Framed(m) && i < m.recordCount
    ensures RawRecord(m, i).Some?
  {
  }

  function RecordAt(m: Map, i: nat): Record
    requires Framed(m) && i < m.recordCount
  {
    RecordIsThere(m, i);
    RawRecord(m, i).value
  }

  /** The record table, read out whole. */
  function Records(m: Map): (rs: seq<Record>)
    requires Framed(m)
    ensures |rs| == m.recordCount
  {
    seq(m.recordCount, i requires 0 <= i < m.recordCount => RecordAt(m, i))
  }

  ghost predicate Lists(rs: seq<Record>, m: Map) {
    |rs| == m.recordCount && forall i: nat {:trigger RawRecord(m, i)} :: i < |rs| ==> RawRecord(m, i) == Some(rs[i])
  }

  lemma RecordsAreListed(m: Map)
    requires Framed(m)
    ensures Lists(Records(m), m)
  {
  }

  predicate GoodRecord(m: Map, r: Record, utf8: Encoding)
    requires Framed(m)
  {
    && m.textStart <= r.start < r.end <= m.textEnd
    && StringAt(m, r.nameOffset, utf8).Some?
    && (r.fileOffset == NO_FILE || StringAt(m, r.fileOffset, utf8).Some?)
  }

  /** Any two records lie apart, in order. */
  ghost predicate Apart(rs: seq<Record>) {
    forall i, j :: 0 <= i < j < |rs| ==> rs[i].end <= rs[j].start
  }

  ghost predicate GoodRecords(m: Map, rs: seq<Record>, utf8: Encoding)
    requires Framed(m)
  {
    (forall i :: 0 <= i < |rs| ==> GoodRecord(m, rs[i], utf8)) && Apart(rs)
  }

  ghost predicate GoodMap(m: Map, utf8: Encoding) {
    Framed(m) && GoodRecords(m, Records(m), utf8)
  }

  ghost predicate Accepts(bytes: seq<Byte>, utf8: Encoding) {
    GoodHeader(bytes) && GoodMap(Layout(bytes), utf8)
  }

  /** Every offset the parser adds up fits a machine word. */
  lemma LayoutFits(bytes: seq<Byte>)
    requires |bytes| >= HEADER_LEN
    ensures Layout(bytes).stringsOffset + Layout(bytes).stringsLen <= U64_MAX
  {
    LittleEndianFits(bytes[24..28]);
    LittleEndianFits(bytes[28..32]);
    FourBytes();
  }

  // ---- Parsing ----

  /** The first complaint about a header, if any. */
  function HeaderError(bytes: seq<Byte>): (e: Option<MapError>)
    ensures e == None <==> GoodHeader(bytes)
  {
    if |bytes| < HEADER_LEN then Some(TooShort)
    else if bytes[..4] != MAGIC then Some(BadMagic)
    else if ReadAt(bytes, 4, 2) != VERSION then Some(UnsupportedVersion(ReadAt(bytes, 4, 2)))
    else if !(1 <= bytes[6] <= 5) then Some(UnsupportedArchitecture(bytes[6]))
    else if bytes[7] == 0 then Some(InvalidBuildId)
    else if ReadAt(bytes, 8, 8) >= ReadAt(bytes, 16, 8) then Some(InvalidTextRange)
    else if Layout(bytes).stringsOffset + Layout(bytes).stringsLen != |bytes| then Some(InvalidRecordCount)
    else None
  }

  /** The first complaint about a record that follows one ending at `previousEnd`. */
  function RecordError(m: Map, r: Record, previousEnd: nat, utf8: Encoding): (e: Option<MapError>)
    requires Framed(m)
    ensures e == None <==> GoodRecord(m, r, utf8) && previousEnd <= r.start
  {
    ValidatedStringsDecode(m, r.nameOffset, utf8);
    ValidatedStringsDecode(m, r.fileOffset, utf8);
    if r.start < m.textStart || r.start >= r.end || r.end > m.textEnd then Some(InvalidRecordRange)
    else if r.start < previousEnd then Some(RecordsNotSorted)
    else match ValidateString(m, r.nameOffset, utf8)
         case Some(e) => Some(e)
         case None => if r.fileOffset != NO_FILE then ValidateString(m, r.fileOffset, utf8) else None
  }

  function PreviousEnd(rs: seq<Record>, textStart: nat, i: nat): nat
    requires i <= |rs|
  {
    if i == 0 then textStart else rs[i - 1].end
  }

  ghost predicate Passes(m: Map, rs: seq<Record>, i: nat, utf8: Encoding)
    requires Framed(m) && i < |rs|
  {
    GoodRecord(m, rs[i], utf8) && PreviousEnd(rs, m.textStart, i) <= rs[i].start
  }

  /** The first `n` records pass the checks made one after another. */
  ghost predicate Checked(m: Map, rs: seq<Record>, n: nat, utf8: Encoding)
    requires Framed(m) && n <= |rs|
  {
    forall i :: 0 <= i < n ==> Passes(m, rs, i, utf8)
  }

  lemma {:induction false} NeighboursApart(rs: seq<Record>, i: nat, j: nat)
    requires i < j < |rs|
    requires forall k :: 0 <= k < |rs| ==> rs[k].start < rs[k].end
    requires forall k :: 0 < k < |rs| ==> rs[k - 1].end <= rs[k].start
    ensures rs[i].end <= rs[j].start
    decreases j
  {
    if i < j - 1 {
      NeighboursApart(rs, i, j - 1);
    }
  }

  /** Checking each record against its predecessor is checking every pair. */
  lemma CheckedIffGood(m: Map, rs: seq<Record>, utf8: Encoding)
    requires Framed(m)
    ensures Checked(m, rs, |rs|, utf8) <==> GoodRecords(m, rs, utf8)
  {
    if Checked(m, rs, |rs|, utf8) {
      forall k | 0 <= k < |rs| ensures GoodRecord(m, rs[k], utf8) && (k > 0 ==> rs[k - 1].end <= rs[k].start) {
        assert Passes(m, rs, k, utf8);
      }
      forall i, j | 0 <= i < j < |rs| ensures rs[i].end <= rs[j].start {
        NeighboursApart(rs, i, j);
      }
    } else if GoodRecords(m, rs, utf8) {
      forall k | 0 <= k < |rs| ensures Passes(m, rs, k, utf8) {
        assert GoodRecord(m, rs[k], utf8) && (k > 0 ==> rs[k - 1].end <= rs[k].start);
      }
    }
  }

  /** The complaint is about some record, all those before it being in order. */
  ghost predicate FirstBad(m: Map, rs: seq<Record>, e: Option<MapError>, utf8: Encoding)
    requires Framed(m)
  {
    exists i :: 0 <= i < |rs| && BadAt(m, rs, i, e, utf8)
  }

  ghost predicate BadAt(m: Map, rs: seq<Record>, i: nat, e: Option<MapError>, utf8: Encoding)
    requires Framed(m) && i < |rs|
  {
    Checked(m, rs, i, utf8) && RecordError(m, rs[i], PreviousEnd(rs, m.textStart, i), utf8) == e
  }

  lemma CheckedOneMore(m: Map, rs: seq<Record>, i: nat, utf8: Encoding)
    requires Framed(m) && i < |rs| && Checked(m, rs, i, utf8)
    ensures Checked(m, rs, i + 1, utf8) <==> RecordError(m, rs[i], PreviousEnd(rs, m.textStart, i), utf8) == None
  {
    assert Checked(m, rs, i + 1, utf8) <==> Passes(m, rs, i, utf8);
  }

  lemma BadIsUnchecked(m: Map, rs: seq<Record>, e: Option<MapError>, utf8: Encoding)
    requires Framed(m) && e.Some? && FirstBad(m, rs, e, utf8)
    ensures !Checked(m, rs, |rs|, utf8)
  {
    var i :| 0 <= i < |rs| && BadAt(m, rs, i, e, utf8);
    CheckedOneMore(m, rs, i, utf8);
    assert !Checked(m, rs, i + 1, utf8);
  }

  method ScanRecords(m: Map, ghost rs: seq<Record>, utf8: Encoding) returns (e: Option<MapError>)
    requires Framed(m) && Lists(rs, m)
    ensures if e == None then Checked(m, rs, |rs|, utf8) else FirstBad(m, rs, e, utf8)
  {
    var previousEnd := m.textStart;
    for index := 0 to m.recordCount
      invariant previousEnd == PreviousEnd(rs, m.textStart, index) && Checked(m, rs, index, utf8)
    {
      var record := RawRecord(m, index);
      e := RecordError(m, record.value, previousEnd, utf8);
      CheckedOneMore(m, rs, index, utf8);
      if e.Some? {
        assert BadAt(m, rs, index, e, utf8);
        return;
      }
      previousEnd := record.value.end;
    }
    return None;
  }

  /** The loop over the record table: no complaint exactly when the whole table is good, else
      the complaint about the first bad record. */
  method CheckRecords(m: Map, ghost rs: seq<Record>, utf8: Encoding) returns (e: Option<MapError>)
    requires Framed(m) && Lists(rs, m)
    ensures e == None <==> GoodRecords(m, rs, utf8)
    ensures e.Some? ==> FirstBad(m, rs, e, utf8)
  {
    e := ScanRecords(m, rs, utf8);
    CheckedIffGood(m, rs, utf8);
    if e.Some? {
      BadIsUnchecked(m, rs, e, utf8);
    }
  }

  /** Accepts exactly the well-formed images; otherwise reports the first complaint. */
  method Parse(bytes: seq<Byte>, utf8: Encoding) returns (r: Result<Map, MapError>)
    ensures r.Ok? <==> Accepts(bytes, utf8)
    ensures r.Ok? ==> r.value == Layout(bytes)
    ensures !GoodHeader(bytes) ==> r == Err(HeaderError(bytes).value)
    ensures r.Err? && GoodHeader(bytes) ==> FirstBad(Layout(bytes), Records(Layout(bytes)), Some(r.error), utf8)
  {
    var headerError := HeaderError(bytes);
    if headerError.Some? {
      return Err(headerError.value);
    }
    var layout := Layout(bytes);
    RecordsAreListed(layout);
    var recordError := CheckRecords(layout, Records(layout), utf8);
    if recordError.Some? {
      return Err(recordError.value);
    }
    return Ok(layout);
  }

  // ---- Lookup ----

  predicate Contains(r: Record, address: nat) {
    r.start <= address < r.end
  }

  function SymbolOf(m: Map, r: Record, utf8: Encoding): Option<Symbol>
    requires Framed(m)
  {
    match StringAt(m, r.nameOffset, utf8)
    case None => None
    case Some(name) =>
      var line := if r.line != 0 then Some(r.line) else None;
      if r.fileOffset == NO_FILE then Some(Symbol(name, None, line))
      else match StringAt(m, r.fileOffset, utf8)
           case None => None
           case Some(file) => Some(Symbol(name, Some(file), line))
  }

  lemma GoodRecordDecodes(m: Map, r: Record, utf8: Encoding)
    requires Framed(m) && GoodRecord(m, r, utf8)
    ensures SymbolOf(m, r, utf8).Some?
  {
  }

  /** The first record containing the address, looking at them in turn. */
  function Scan(rs: seq<Record>, address: nat): Option<Record> {
    if rs == [] then None else if Contains(rs[0], address) then Some(rs[0]) else Scan(rs[1..], address)
  }

  lemma {:induction false} ScanFinds(rs: seq<Record>, address: nat, i: nat)
    requires i < |rs| && Contains(rs[i], address)
    requires forall j :: 0 <= j < i ==> !Contains(rs[j], address)
    ensures Scan(rs, address) == Some(rs[i])
    decreases i
  {
    if i > 0 { ScanFinds(rs[1..], address, i - 1); }
  }

  lemma {:induction false} ScanMisses(rs: seq<Record>, address: nat)
    requires forall j :: 0 <= j < |rs| ==> !Contains(rs[j], address)
    ensures Scan(rs, address) == None
  {
    if rs != [] { ScanMisses(rs[1..], address); }
  }

  ghost predicate Covered(rs: seq<Record>, address: nat) {
    exists i :: 0 <= i < |rs| && Contains(rs[i], address)
  }

  lemma ContainerIsUnique(rs: seq<Record>, address: nat, i: nat, j: nat)
    requires Apart(rs) && i < |rs| && j < |rs| && Contains(rs[i], address) && Contains(rs[j], address)
    ensures i == j && Scan(rs, address) == Some(rs[i])
  {
    assert !(i < j) && !(j < i);
    forall k | 0 <= k < i ensures !Contains(rs[k], address) {
      assert rs[k].end <= rs[i].start;
    }
    ScanFinds(rs, address, i);
  }

  /** Halving the table: the record found is the one a linear scan finds. */
  method Search(m: Map, ghost rs: seq<Record>, address: nat) returns (r: Option<Record>)
    requires Framed(m) && Lists(rs, m) && Apart(rs) && forall i :: 0 <= i < |rs| ==> rs[i].start < rs[i].end
    ensures r == Scan(rs, address)
    ensures r.Some? <==> Covered(rs, address)
    ensures r.Some? ==> r.value in rs
  {
    var low, high := 0, m.recordCount;
    while low < high
      invariant 0 <= low <= high <= m.recordCount
      invariant forall i :: 0 <= i < low ==> rs[i].end <= address
      invariant forall i :: high <= i < |rs| ==> address < rs[i].start
    {
      var middle := low + (high - low) / 2;
      var record := RawRecord(m, middle).value;
      assert record == rs[middle];
      if address < record.start {
        high := middle;
      } else if address >= record.end {
        low := middle + 1;
      } else {
        ContainerIsUnique(rs, address, middle, middle);
        return Some(record);
      }
    }
    ScanMisses(rs, address);
    return None;
  }

  /** Lookup returns the symbol of the one record containing the address, as a linear scan
      would; it returns nothing exactly when no record contains it, so decoding never fails. */
  method Lookup(m: Map, address: nat, utf8: Encoding) returns (r: Option<Symbol>)
    requires GoodMap(m, utf8)
    ensures r.Some? <==> Covered(Records(m), address)
    ensures r.Some? ==> Scan(Records(m), address).Some? && r == SymbolOf(m, Scan(Records(m), address).value, utf8)
  {
    RecordsAreListed(m);
    if address < m.textStart || address >= m.textEnd {
      OutsideText(m, Records(m), address, utf8);
      return None;
    }
    var found := Search(m, Records(m), address);
    if found.None? {
      return None;
    }
    GoodRecordDecodes(m, found.value, utf8);
    return SymbolOf(m, found.value, utf8);
  }

  lemma OutsideText(m: Map, rs: seq<Record>, address: nat, utf8: Encoding)
    requires Framed(m) && GoodRecords(m, rs, utf8) && (address < m.textStart || address >= m.textEnd)
    ensures !Covered(rs, address)
  {
  }
}
