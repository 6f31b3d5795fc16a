/** Validation of an ELF64 boot image, from bytes to segments, entry point and page span. Sizes
    are those of a 64-bit target, on which a file offset that overflows is past the image. */
module ElfImage {
  import opened Bytes
  import opened ElfSegments
  import opened Options

  const MAGIC: seq<Byte> := [0x7F, 0x45, 0x4C, 0x46]
  const HEADER_SIZE := 64
  const PROGRAM_HEADER_SIZE := 56
  const SECTION_HEADER_SIZE := 64
  const SYMBOL_SIZE := 24
  const PT_LOAD := 1
  const SHT_SYMTAB := 2
  const SHT_STRTAB := 3
  const SHT_DYNSYM := 11

  datatype ElfError =
    | TooSmall | BadMagic | UnsupportedClass | UnsupportedEndian | UnsupportedVersion
    | UnsupportedMachine | UnsupportedEntrySymbol | ProgramHeaderRange | LoadSegmentMissing
    | SegmentRange | SegmentAddressOverflow | SymbolTableRange | EntrySymbolMissing | EntryNotExecutable

  datatype TargetSpec = TargetSpec(machine: nat, entrySymbol: seq<Byte>)

  datatype Header = Header(ident: seq<Byte>, machine: nat, version: nat, programOffset: nat, sectionOffset: nat,
                           programSize: nat, programCount: nat, sectionSize: nat, sectionCount: nat)

  datatype Image = Image(segments: seq<Segment>, entryPoint: nat, linkLoadAddress: nat, loadEnd: nat, pageCount: nat)

  function ReadHeader(image: seq<Byte>): (h: Option<Header>)
    ensures h.Some? ==> |h.value.ident| == 7
  {
    if |image| < HEADER_SIZE then None
    else Some(Header(image[..7], ReadAt(image, 18, 2), ReadAt(image, 20, 4), ReadAt(image, 32, 8), ReadAt(image, 40, 8),
                     ReadAt(image, 54, 2), ReadAt(image, 56, 2), ReadAt(image, 58, 2), ReadAt(image, 60, 2)))
  }

  function HeaderError(h: Header, spec: TargetSpec, requested: Option<seq<Byte>>): Option<ElfError>
    requires |h.ident| == 7
  {
    if h.ident[..4] != MAGIC then Some(BadMagic)
    else if h.ident[4] != 2 then Some(UnsupportedClass)
    else if h.ident[5] != 1 then Some(UnsupportedEndian)
    else if h.ident[6] != 1 || h.version != 1 then Some(UnsupportedVersion)
    else if h.machine != spec.machine then Some(UnsupportedMachine)
    else if requested != Some(spec.entrySymbol) then Some(UnsupportedEntrySymbol)
    else None
  }

  // ---- Program headers ----

  datatype ProgramHeader = ProgramHeader(kind: nat, segment: Segment)

  predicate ProgramTableFits(image: seq<Byte>, h: Header) {
    h.programSize == PROGRAM_HEADER_SIZE && h.programOffset + h.programCount * PROGRAM_HEADER_SIZE <= |image|
  }

  function ReadProgramHeader(image: seq<Byte>, offset: nat): Option<ProgramHeader> {
    if offset + 48 > |image| then None
    else Some(ProgramHeader(ReadAt(image, offset, 4),
                            Segment(ReadAt(image, offset + 8, 8), ReadAt(image, offset + 16, 8),
                                    ReadAt(image, offset + 24, 8), ReadAt(image, offset + 32, 8),
                                    ReadAt(image, offset + 40, 8), ReadAt(image, offset + 4, 4))))
  }

  function ProgramHeaderAt(image: seq<Byte>, h: Header, i: nat): Option<ProgramHeader> {
    ReadProgramHeader(image, h.programOffset + i * PROGRAM_HEADER_SIZE)
  }

  lemma ProgramHeaderIsThere(image: seq<Byte>, h: Header, i: nat)
    requires ProgramTableFits(image, h) && i < h.programCount
    ensures ProgramHeaderAt(image, h, i).Some?
  {
  }

  /** The program header table, read out whole. */
  function ProgramHeaders(image: seq<Byte>, h: Header): (ps: seq<ProgramHeader>)
    requires ProgramTableFits(image, h)
    ensures |ps| == h.programCount
  {
    seq(h.programCount, i requires 0 <= i < h.programCount =>
      ProgramHeaderIsThere(image, h, i); ProgramHeaderAt(image, h, i).value)
  }

  ghost predicate ListsPrograms(ps: seq<ProgramHeader>, image: seq<Byte>, h: Header) {
    && |ps| == h.programCount
    && forall i: nat {:trigger ProgramHeaderAt(image, h, i)} ::
         i < |ps| ==> ProgramHeaderAt(image, h, i) == Some(ps[i])
  }

  /** What is wrong with a loadable segment, taken by itself. */
  function SegmentError(x: Segment, imageSize: nat): Option<ElfError> {
    if x.memorySize == 0 then Some(SegmentRange)
    else if x.fileSize > x.memorySize then Some(SegmentRange)
    else if x.fileOffset + x.fileSize > imageSize then Some(SegmentRange)
    else if x.virtualAddress + x.memorySize >= WORD_LIMIT then Some(SegmentAddressOverflow)
    else None
  }

  function Loads(ps: seq<ProgramHeader>): seq<Segment> {
    if ps == [] then []
    else Loads(ps[..|ps| - 1]) + if ps[|ps| - 1].kind == PT_LOAD then [ps[|ps| - 1].segment] else []
  }

  ghost predicate LoadsAreFine(ps: seq<ProgramHeader>, imageSize: nat) {
    forall i :: 0 <= i < |ps| && ps[i].kind == PT_LOAD ==> SegmentError(ps[i].segment, imageSize) == None
  }

  /** Loadable: each segment is in order by itself, there is one, and no two of them, in whatever
      order the table lists them, share a physical address. */
  ghost predicate Loadable(ps: seq<ProgramHeader>, imageSize: nat) {
    LoadsAreFine(ps, imageSize) && Loads(ps) != [] && PairwiseDisjoint(Loads(ps))
  }

  ghost predicate AddressesFit(ps: seq<ProgramHeader>) {
    forall i :: 0 <= i < |ps| ==> ps[i].segment.physicalAddress < WORD_LIMIT
  }

  lemma ProgramHeadersAreListed(image: seq<Byte>, h: Header)
    requires ProgramTableFits(image, h)
    ensures ListsPrograms(ProgramHeaders(image, h), image, h) && AddressesFit(ProgramHeaders(image, h))
  {
    var ps := ProgramHeaders(image, h);
    forall i: nat | i < |ps|
      ensures ProgramHeaderAt(image, h, i) == Some(ps[i])
      ensures ps[i].segment.physicalAddress < WORD_LIMIT
    {
      ProgramHeaderIsThere(image, h, i);
      var offset := h.programOffset + i * PROGRAM_HEADER_SIZE;
      LittleEndianFits(image[offset + 24..offset + 32]);
      EightBytes();
    }
  }

  lemma {:induction false} LoadsAreSolid(ps: seq<ProgramHeader>, imageSize: nat)
    requires LoadsAreFine(ps, imageSize) && AddressesFit(ps)
    ensures forall x :: x in Loads(ps) ==> x.Solid() && SegmentError(x, imageSize) == None
    decreases |ps|
  {
    if ps != [] {
      LoadsAreSolid(ps[..|ps| - 1], imageSize);
      assert ps[|ps| - 1].kind == PT_LOAD ==> SegmentError(ps[|ps| - 1].segment, imageSize) == None;
    }
  }

  method CollectLoads(image: seq<Byte>, h: Header, ghost ps: seq<ProgramHeader>)
    returns (r: Result<seq<Segment>, ElfError>)
    requires ListsPrograms(ps, image, h)
    ensures r.Ok? <==> LoadsAreFine(ps, |image|)
    ensures r.Ok? ==> r.value == Loads(ps)
    ensures r.Err? ==> exists i ::
      && 0 <= i < |ps| && ps[i].kind == PT_LOAD
      && LoadsAreFine(ps[..i], |image|) && SegmentError(ps[i].segment, |image|) == Some(r.error)
  {
    var segments := [];
    for index := 0 to h.programCount
      invariant segments == Loads(ps[..index]) && LoadsAreFine(ps[..index], |image|)
    {
      var program := ProgramHeaderAt(image, h, index).value;
      assert ps[..index + 1][..index] == ps[..index];
      if program.kind == PT_LOAD {
        var error := SegmentError(program.segment, |image|);
        if error.Some? {
          return Err(error.value);
        }
        segments := segments + [program.segment];
      }
    }
    assert ps[..|ps|] == ps;
    return Ok(segments);
  }

  /** The segments sorted by physical address, exactly when the image is loadable: comparing
      neighbours after sorting decides disjointness of every pair. */
  method LoadSegments(image: seq<Byte>, h: Header) returns (r: Result<seq<Segment>, ElfError>)
    ensures r.Ok? <==> ProgramTableFits(image, h) && Loadable(ProgramHeaders(image, h), |image|)
    ensures r.Ok? ==> r.value == SortByAddress(Loads(ProgramHeaders(image, h)))
    ensures r.Ok? ==> Sound(r.value, |image|)
    ensures !ProgramTableFits(image, h) ==> r == Err(ProgramHeaderRange)
    ensures r.Err? && ProgramTableFits(image, h) && LoadsAreFine(ProgramHeaders(image, h), |image|) ==>
      r.error == if Loads(ProgramHeaders(image, h)) == [] then LoadSegmentMissing else SegmentRange
  {
    if !ProgramTableFits(image, h) {
      return Err(ProgramHeaderRange);
    }
    ghost var ps := ProgramHeaders(image, h);
    ProgramHeadersAreListed(image, h);
    var collected := CollectLoads(image, h, ps);
    if collected.Err? {
      return Err(collected.error);
    }
    var segments := collected.value;
    if segments == [] {
      return Err(LoadSegmentMissing);
    }
    var sorted := SortByAddress(segments);
    LoadsAreSolid(ps, |image|);
    SortedIsSound(segments, |image|);
    var overlap := AnyNeighboursOverlap(sorted);
    if overlap {
      return Err(SegmentRange);
    }
    return Ok(sorted);
  }

  /** Segments as an accepted image has them. */
  ghost predicate Sound(s: seq<Segment>, imageSize: nat) {
    && s != [] && Sorted(s) && PairwiseDisjoint(s)
    && forall x :: x in s ==> x.Solid() && SegmentError(x, imageSize) == None
  }

  lemma SortedIsSound(s: seq<Segment>, imageSize: nat)
    requires s != [] && forall x :: x in s ==> x.Solid() && SegmentError(x, imageSize) == None
    ensures !NeighboursOverlap(SortByAddress(s)) <==> PairwiseDisjoint(s)
    ensures PairwiseDisjoint(s) <==> Sound(SortByAddress(s), imageSize)
  {
    SortSorts(s);
    SortKeepsElements(s);
    SortKeepsDisjoint(s);
    NeighboursDecide(SortByAddress(s));
  }

  // ---- The entry symbol ----

  datatype Section = Section(kind: nat, offset: nat, size: nat, link: nat, entrySize: nat)

  /** What a section means for the search: not a symbol table, a malformed one, or its contents. */
  datatype Table = Skipped | Malformed | Symbols(symbols: seq<Byte>, strings: seq<Byte>, entrySize: nat)

  predicate SectionTableFits(image: seq<Byte>, h: Header) {
    h.sectionSize >= SECTION_HEADER_SIZE && h.sectionOffset + h.sectionCount * h.sectionSize <= |image|
  }

  function ReadSection(image: seq<Byte>, offset: nat): Option<Section> {
    if offset + 64 > |image| then None
    else Some(Section(ReadAt(image, offset + 4, 4), ReadAt(image, offset + 24, 8), ReadAt(image, offset + 32, 8),
                      ReadAt(image, offset + 40, 4), ReadAt(image, offset + 56, 8)))
  }

  function SectionAt(image: seq<Byte>, h: Header, i: nat): Option<Section> {
    ReadSection(image, h.sectionOffset + i * h.sectionSize)
  }

  lemma SectionIsThere(image: seq<Byte>, h: Header, i: nat)
    requires SectionTableFits(image, h) && i < h.sectionCount
    ensures SectionAt(image, h, i).Some?
  {
  }

  function SectionBytes(image: seq<Byte>, x: Section): Option<seq<Byte>> {
    if x.offset + x.size <= |image| then Some(image[x.offset..x.offset + x.size]) else None
  }

  /** A well-formed table holds a whole number of entries. */
  predicate WholeEntries(t: Table) {
    t.Symbols? ==> t.entrySize >= SYMBOL_SIZE && |t.symbols| % t.entrySize == 0
  }

  function TableAt(image: seq<Byte>, h: Header, i: nat): (t: Table)
    requires SectionTableFits(image, h) && i < h.sectionCount
    ensures WholeEntries(t)
  {
    SectionIsThere(image, h, i);
    var x := SectionAt(image, h, i).value;
    if x.kind != SHT_SYMTAB && x.kind != SHT_DYNSYM then Skipped
    else if x.link >= h.sectionCount then Malformed
    else
      SectionIsThere(image, h, x.link);
      var names := SectionAt(image, h, x.link).value;
      if names.kind != SHT_STRTAB then Malformed
      else
        match (SectionBytes(image, x), SectionBytes(image, names))
        case (Some(symbols), Some(strings)) =>
          var entrySize := if x.entrySize == 0 then SYMBOL_SIZE else x.entrySize;
          if entrySize < SYMBOL_SIZE || |symbols| % entrySize != 0 then Malformed
            else Symbols(symbols, strings, entrySize)
        case _ => Malformed
  }

  function StringFrom(bytes: seq<Byte>, offset: nat): Option<seq<Byte>> {
    if offset > |bytes| then None
    else match FirstZero(bytes[offset..]) case None => None case Some(n) => Some(bytes[offset..offset + n])
  }

  /** There is a `k`-th entry in the table. */
  predicate IsEntry(t: Table, k: nat) {
    t.Symbols? && t.entrySize >= SYMBOL_SIZE && k * t.entrySize + t.entrySize <= |t.symbols|
  }

  predicate Named(t: Table, k: nat, name: seq<Byte>)
    requires IsEntry(t, k)
  {
    StringFrom(t.strings, ReadAt(t.symbols, k * t.entrySize, 4)) == Some(name)
  }

  function ValueAt(t: Table, k: nat): nat
    requires IsEntry(t, k)
  {
    ReadAt(t.symbols, k * t.entrySize + 8, 8)
  }

  /** The first entry with this name has this value. */
  ghost predicate FirstDefinition(t: Table, k: nat, name: seq<Byte>, value: nat) {
    && IsEntry(t, k) && Named(t, k, name) && ValueAt(t, k) == value
    && forall j: nat :: j < k && IsEntry(t, j) ==> !Named(t, j, name)
  }

  ghost predicate Defines(t: Table, name: seq<Byte>, value: nat) {
    exists k: nat :: FirstDefinition(t, k, name, value)
  }

  ghost predicate Lacks(t: Table, name: seq<Byte>) {
    t != Malformed && forall k: nat :: IsEntry(t, k) ==> !Named(t, k, name)
  }

  lemma NonPositiveProduct(a: int, e: nat)
    requires a <= 0
    ensures a * e <= 0
  {
  }

  lemma ProductOrder(j: nat, k: nat, e: nat)
    requires j * e < k * e
    ensures j < k && j * e + e <= k * e
  {
    if j >= k {
      NonPositiveProduct(k - j, e);
    }
    NonPositiveProduct(j + 1 - k, e);
  }

  /** Below the end of the symbols there is room for a whole entry. */
  lemma RoomForEntry(t: Table, k: nat)
    requires t.Symbols? && WholeEntries(t) && k * t.entrySize < |t.symbols|
    ensures IsEntry(t, k)
  {
    var n := |t.symbols| / t.entrySize;
    assert |t.symbols| == n * t.entrySize;
    ProductOrder(k, n, t.entrySize);
  }

  method ScanTable(t: Table, name: seq<Byte>) returns (r: Option<nat>)
    requires t.Symbols? && WholeEntries(t)
    ensures r.None? ==> Lacks(t, name)
    ensures r.Some? ==> Defines(t, name, r.value)
  {
    var offset := 0;
    ghost var k := 0;
    while offset < |t.symbols|
      invariant offset == k * t.entrySize
      invariant forall j: nat :: j < k && IsEntry(t, j) ==> !Named(t, j, name)
      decreases |t.symbols| - offset
    {
      RoomForEntry(t, k);
      if StringFrom(t.strings, ReadAt(t.symbols, offset, 4)) == Some(name) {
        assert FirstDefinition(t, k, name, ValueAt(t, k));
        return Some(ReadAt(t.symbols, offset + 8, 8));
      }
      assert (k + 1) * t.entrySize == offset + t.entrySize;
      offset := offset + t.entrySize;
      k := k + 1;
    }
    forall j: nat | IsEntry(t, j) ensures !Named(t, j, name) {
      ProductOrder(j, k, t.entrySize);
    }
    return None;
  }

  /** Section `i` decides the search: every one before it is well formed and lacks the name. */
  ghost predicate Decides(image: seq<Byte>, h: Header, i: nat, name: seq<Byte>)
    requires SectionTableFits(image, h)
  {
    i < h.sectionCount && forall j: nat :: j < i ==> Lacks(TableAt(image, h, j), name)
  }

  ghost predicate SymbolIs(image: seq<Byte>, h: Header, name: seq<Byte>, value: nat) {
    && SectionTableFits(image, h)
    && exists i: nat :: Decides(image, h, i, name) && Defines(TableAt(image, h, i), name, value)
  }

  lemma DefinitionExcludes(t: Table, name: seq<Byte>, v: nat, w: nat)
    requires Defines(t, name, v)
    ensures !Lacks(t, name) && t != Malformed
    ensures Defines(t, name, w) ==> v == w
  {
  }

  /** Nothing after the section that defines the name decides. */
  lemma DefinitionIsLast(image: seq<Byte>, h: Header, i: nat, j: nat, name: seq<Byte>, v: nat)
    requires SectionTableFits(image, h) && i < h.sectionCount
    requires Defines(TableAt(image, h, i), name, v) && Decides(image, h, j, name)
    ensures j <= i
  {
    if i < j {
      assert Lacks(TableAt(image, h, i), name);
      DefinitionExcludes(TableAt(image, h, i), name, v, v);
    }
  }

  lemma DefinitionsAgree(image: seq<Byte>, h: Header, name: seq<Byte>, v: nat, w: nat)
    requires SymbolIs(image, h, name, v) && SymbolIs(image, h, name, w)
    ensures v == w
  {
    var i: nat :| Decides(image, h, i, name) && Defines(TableAt(image, h, i), name, v);
    var j: nat :| Decides(image, h, j, name) && Defines(TableAt(image, h, j), name, w);
    DefinitionIsLast(image, h, i, j, name, v);
    DefinitionIsLast(image, h, j, i, name, w);
    DefinitionExcludes(TableAt(image, h, i), name, v, w);
  }

  lemma NothingMalformedDecides(image: seq<Byte>, h: Header, i: nat, j: nat, name: seq<Byte>, v: nat)
    requires SectionTableFits(image, h) && Decides(image, h, i, name) && Defines(TableAt(image, h, i), name, v)
    requires Decides(image, h, j, name)
    ensures TableAt(image, h, j) != Malformed
  {
    DefinitionIsLast(image, h, i, j, name, v);
    if j < i {
      assert Lacks(TableAt(image, h, j), name);
    } else {
      DefinitionExcludes(TableAt(image, h, i), name, v, v);
    }
  }

  /** A name resolves to one value, and then the search neither fails nor comes back empty. */
  lemma SymbolIsUnique(image: seq<Byte>, h: Header, name: seq<Byte>, v: nat, w: nat)
    requires SymbolIs(image, h, name, v)
    ensures SymbolIs(image, h, name, w) ==> v == w
    ensures exists i: nat :: i < h.sectionCount && !Lacks(TableAt(image, h, i), name)
    ensures !exists i: nat :: Decides(image, h, i, name) && TableAt(image, h, i) == Malformed
  {
    if SymbolIs(image, h, name, w) { DefinitionsAgree(image, h, name, v, w); }
    var i: nat :| Decides(image, h, i, name) && Defines(TableAt(image, h, i), name, v);
    DefinitionExcludes(TableAt(image, h, i), name, v, v);
    forall j: nat | Decides(image, h, j, name) ensures TableAt(image, h, j) != Malformed {
      NothingMalformedDecides(image, h, i, j, name, v);
    }
  }

  /** The first definition in section order; nothing when every symbol table lacks the name; an
      error when a malformed table comes before any definition. */
  method FindSymbol(image: seq<Byte>, h: Header, name: seq<Byte>) returns (r: Result<Option<nat>, ElfError>)
    ensures r.Ok? && r.value.Some? ==> SymbolIs(image, h, name, r.value.value)
    ensures r == Ok(None) && h.sectionCount > 0 ==>
      SectionTableFits(image, h) && forall i: nat :: i < h.sectionCount ==> Lacks(TableAt(image, h, i), name)
    ensures r.Err? ==> r.error == SymbolTableRange && h.sectionCount > 0
    ensures r.Err? && SectionTableFits(image, h) ==>
      exists i: nat :: Decides(image, h, i, name) && TableAt(image, h, i) == Malformed
  {
    if h.sectionCount == 0 {
      return Ok(None);
    }
    if !SectionTableFits(image, h) {
      return Err(SymbolTableRange);
    }
    for index := 0 to h.sectionCount
      invariant forall j: nat :: j < index ==> Lacks(TableAt(image, h, j), name)
    {
      assert Decides(image, h, index, name);
      var t := TableAt(image, h, index);
      if t.Malformed? {
        return Err(SymbolTableRange);
      }
      if t.Symbols? {
        var found := ScanTable(t, name);
        if found.Some? {
          return Ok(found);
        }
      }
    }
    return Ok(None);
  }

  // ---- The whole image ----

  ghost predicate EndsFit(s: seq<Segment>) {
    forall x :: x in s ==> x.End() + PAGE - 1 < WORD_LIMIT
  }

  ghost predicate EntryMapped(s: seq<Segment>, value: nat) {
    exists x :: x in s && x.Executable() && x.Maps(value)
  }

  /** What an image must be to be accepted, for the value of its entry symbol. */
  ghost predicate Acceptable(image: seq<Byte>, spec: TargetSpec, requested: Option<seq<Byte>>, value: nat) {
    && ReadHeader(image).Some?
    && var h := ReadHeader(image).value;
    && HeaderError(h, spec, requested) == None
    && ProgramTableFits(image, h) && Loadable(ProgramHeaders(image, h), |image|)
    && EndsFit(Loads(ProgramHeaders(image, h)))
    && SymbolIs(image, h, spec.entrySymbol, value)
    && EntryMapped(Loads(ProgramHeaders(image, h)), value)
  }

  /** Every segment inside a page-aligned span of exactly `pageCount` pages, with no page to spare
      at either end. */
  ghost predicate Placed(im: Image) {
    && im.linkLoadAddress % PAGE == 0 && im.loadEnd % PAGE == 0
    && im.loadEnd == im.linkLoadAddress + im.pageCount * PAGE
    && (forall x :: x in im.segments ==> im.linkLoadAddress <= x.physicalAddress && x.End() <= im.loadEnd)
    && (exists x :: x in im.segments && x.physicalAddress < im.linkLoadAddress + PAGE)
    && (exists x :: x in im.segments && im.loadEnd - PAGE < x.End())
  }

  ghost predicate EntryPlaced(im: Image, value: nat) {
    exists x :: x in im.segments && Resolves(x, value, im.entryPoint)
  }

  datatype Span = Span(start: nat, end: nat, pages: nat)

  method PlaceSegments(s: seq<Segment>) returns (r: Result<Span, ElfError>)
    requires s != []
    ensures r.Ok? <==> EndsFit(s)
    ensures r.Err? ==> r.error == SegmentAddressOverflow
    ensures r.Ok? ==> Placed(Image(s, 0, r.value.start, r.value.end, r.value.pages))
  {
    var first, lastEnd := Bounds(s);
    if lastEnd.None? {
      return Err(SegmentAddressOverflow);
    }
    var start := AlignDown(first);
    var end := AlignUp(lastEnd.value);
    if end.None? {
      return Err(SegmentAddressOverflow);
    }
    AlignmentIsTight(first);
    AlignmentIsTight(lastEnd.value);
    WholePages(start, end.value);
    return Ok(Span(start, end.value, (end.value - start) / PAGE));
  }

  lemma WholePages(start: nat, end: nat)
    requires start % PAGE == 0 && end % PAGE == 0
    ensures (end - start) % PAGE == 0
  {
  }

  lemma SameAfterSort(s: seq<Segment>, value: nat)
    ensures EndsFit(SortByAddress(s)) <==> EndsFit(s)
    ensures EntryMapped(SortByAddress(s), value) <==> EntryMapped(s, value)
  {
    SortKeepsElements(s);
  }

  /** The entry address, once the segments are placed. */
  method ResolveEntry(image: seq<Byte>, h: Header, name: seq<Byte>, s: seq<Segment>)
    returns (r: Result<nat, ElfError>, ghost value: nat)
    requires EndsFit(s)
    ensures r.Ok? ==> SymbolIs(image, h, name, value) && EntryMapped(s, value)
    ensures r.Ok? ==> exists x :: x in s && Resolves(x, value, r.value)
    ensures r.Err? ==> forall v: nat :: !(SymbolIs(image, h, name, v) && EntryMapped(s, v))
  {
    var symbol := FindSymbol(image, h, name);
    forall v: nat, w: nat | SymbolIs(image, h, name, v)
      ensures SymbolIs(image, h, name, w) ==> v == w
      ensures exists i: nat :: i < h.sectionCount && !Lacks(TableAt(image, h, i), name)
      ensures !exists i: nat :: Decides(image, h, i, name) && TableAt(image, h, i) == Malformed
    {
      SymbolIsUnique(image, h, name, v, w);
    }
    if symbol.Err? {
      return Err(symbol.error), 0;
    }
    if symbol.value.None? {
      return Err(EntrySymbolMissing), 0;
    }
    var address := symbol.value.value;
    value := address;
    ResolutionIsExecutable(address, s);
    var entry := ExecutablePhysical(address, s);
    if entry.None? {
      return Err(EntryNotExecutable), 0;
    }
    return Ok(entry.value), address;
  }

  /** An accepted image has its load segments sorted, pairwise disjoint, and inside a page-aligned
      span of exactly the reported pages, with its entry in an executable segment; an image is
      accepted exactly when it can be. */
  method Parse(image: seq<Byte>, spec: TargetSpec, requested: Option<seq<Byte>>) returns (r: Result<Image, ElfError>)
    ensures r.Ok? <==> exists value: nat :: Acceptable(image, spec, requested, value)
    ensures r.Ok? ==> Sound(r.value.segments, |image|) && Placed(r.value)
    ensures r.Ok? ==> r.value.segments == SortByAddress(Loads(ProgramHeaders(image, ReadHeader(image).value)))
    ensures r.Ok? ==> exists value: nat :: Acceptable(image, spec, requested, value) && EntryPlaced(r.value, value)
  {
    var header := ReadHeader(image);
    if header.None? {
      return Err(TooSmall);
    }
    var h := header.value;
    var headerError := HeaderError(h, spec, requested);
    if headerError.Some? {
      return Err(headerError.value);
    }
    var loaded := LoadSegments(image, h);
    if loaded.Err? {
      return Err(loaded.error);
    }
    var segments := loaded.value;
    forall v: nat
      ensures EndsFit(segments) <==> EndsFit(Loads(ProgramHeaders(image, h)))
      ensures EntryMapped(segments, v) <==> EntryMapped(Loads(ProgramHeaders(image, h)), v)
    {
      SameAfterSort(Loads(ProgramHeaders(image, h)), v);
    }
    var span := PlaceSegments(segments);
    if span.Err? {
      return Err(span.error);
    }
    var entry, value := ResolveEntry(image, h, spec.entrySymbol, segments);
    if entry.Err? {
      return Err(entry.error);
    }
    assert Acceptable(image, spec, requested, value);
    var accepted := Image(segments, entry.value, span.value.start, span.value.end, span.value.pages);
    assert EntryPlaced(accepted, value);
    return Ok(accepted);
  }
}
