/** The zip archive a release publishes, and a reader that starts, as section
    4.3.16 of PKWARE's APPNOTE.TXT has it, from the end record. */
module Zip {
  import opened Types
  import opened LittleEndian

  const ZIP_LIMIT: nat := 0xffff_ffff
  const ZIP_EPOCH_DATE: nat := 33
  const LOCAL_SIGNATURE: nat := 0x0403_4b50
  const CENTRAL_SIGNATURE: nat := 0x0201_4b50
  const END_SIGNATURE: nat := 0x0605_4b50
  const DEFLATE: nat := 8
  /** The host whose file attributes are Unix's (section 4.4.2). */
  const UNIX: nat := 3
  /** The flag that says names are UTF-8 (section 4.4.4, bit 11). */
  const UTF8_NAMES: nat := 0x0800
  /** The type of a regular file, in the attributes' highest four bits. */
  const REGULAR: nat := 8

  datatype Entry = Entry(name: Bytes, data: Bytes, mode: int)

  /** What zlib provides. */
  datatype Codec = Codec(deflate: Bytes -> Bytes, inflate: Bytes -> Option<Bytes>, crc: Bytes -> nat) {
    /** Inflating undoes deflating, and a checksum is 32 bits. */
    ghost predicate Lawful()
    {
      (forall data :: inflate(deflate(data)) == Some(data)) && forall data :: crc(data) < U32
    }
  }

  // ----- The records, as they are written -----

  /** Unix type and permission bits, in the upper half of the attributes. */
  function Attributes(mode: int): nat
  {
    (0x8000 + mode % 512) * U16
  }

  function LocalWrites(crc: nat, compressed: nat, size: nat, nameLen: nat): seq<Write>
  {
    [W32(0, LOCAL_SIGNATURE), W16(4, 20), W16(6, 0x0800), W16(8, DEFLATE), W16(10, 0), W16(12, ZIP_EPOCH_DATE),
     W32(14, crc), W32(18, compressed), W32(22, size), W16(26, nameLen), W16(28, 0)]
  }

  function LocalHeader(crc: nat, compressed: nat, size: nat, nameLen: nat): Bytes
  {
    Written(30, LocalWrites(crc, compressed, size, nameLen))
  }

  function CentralWrites(crc: nat, compressed: nat, size: nat, nameLen: nat, attributes: nat, offset: nat): seq<Write>
  {
    [W32(0, CENTRAL_SIGNATURE), W16(4, 3 * 256 + 20), W16(6, 20), W16(8, 0x0800), W16(10, DEFLATE), W16(12, 0),
     W16(14, ZIP_EPOCH_DATE), W32(16, crc), W32(20, compressed), W32(24, size), W16(28, nameLen),
     W32(38, attributes), W32(42, offset)]
  }

  function CentralHeader(crc: nat, compressed: nat, size: nat, nameLen: nat, attributes: nat, offset: nat): Bytes
  {
    Written(46, CentralWrites(crc, compressed, size, nameLen, attributes, offset))
  }

  function EndWrites(count: nat, size: nat, offset: nat): seq<Write>
  {
    [W32(0, END_SIGNATURE), W16(8, count), W16(10, count), W32(12, size), W32(16, offset)]
  }

  function EndRecord(count: nat, size: nat, offset: nat): Bytes
  {
    Written(22, EndWrites(count, size, offset))
  }

  /** `h` reads as a local header with these values (section 4.3.7). */
  predicate IsLocal(h: Bytes, crc: nat, compressed: nat, size: nat, nameLen: nat)
  {
    |h| == 30 && At32(h, 0) == LOCAL_SIGNATURE && At16(h, 8) == DEFLATE &&
    At16(h, 6) == UTF8_NAMES && At32(h, 14) == crc &&
    At32(h, 18) == compressed && At32(h, 22) == size && At16(h, 26) == nameLen && At16(h, 28) == 0
  }

  /** `h` reads as a central header with these values (section 4.3.12). */
  predicate IsCentral(h: Bytes, crc: nat, compressed: nat, size: nat, nameLen: nat, attributes: nat, offset: nat)
  {
    |h| == 46 && At32(h, 0) == CENTRAL_SIGNATURE && At16(h, 10) == DEFLATE && At32(h, 16) == crc &&
    At32(h, 20) == compressed && At32(h, 24) == size && At16(h, 28) == nameLen &&
    At16(h, 30) == 0 && At16(h, 32) == 0 && At32(h, 38) == attributes && At32(h, 42) == offset
  }

  /** `time` and `date` are the first of January 1980, at midnight (section 4.4.6). */
  predicate IsEpoch(time: nat, date: nat)
  {
    time == 0 && date / 512 == 0 && date / 32 % 16 == 1 && date % 32 == 1
  }

  /** `h` says what it takes to read the entry: version 2.0, and the epoch. */
  predicate IsPlainLocal(h: Bytes)
  {
    |h| == 30 && At16(h, 4) == 20 && IsEpoch(At16(h, 10), At16(h, 12))
  }

  /** `h` says what made the entry and what it takes to read it: Unix, version
      2.0, UTF-8 names, the epoch, the first disk and no internal attributes. */
  predicate IsMadeByUnix(h: Bytes)
  {
    |h| == 46 && At16(h, 4) == UNIX * 256 + 20 && At16(h, 6) == 20 && At16(h, 8) == UTF8_NAMES &&
    IsEpoch(At16(h, 12), At16(h, 14)) && At16(h, 34) == 0 && At16(h, 36) == 0
  }

  /** `h` reads as an end record with these values (section 4.3.16). */
  predicate IsEnd(h: Bytes, count: nat, size: nat, offset: nat)
  {
    |h| == 22 && At32(h, 0) == END_SIGNATURE && At16(h, 8) == count && At16(h, 10) == count &&
    At32(h, 12) == size && At32(h, 16) == offset && At16(h, 20) == 0
  }

  lemma LocalFields(crc: nat, compressed: nat, size: nat, nameLen: nat)
    requires crc < U32 && compressed < U32 && size < U32 && nameLen < U16
    ensures IsLocal(LocalHeader(crc, compressed, size, nameLen), crc, compressed, size, nameLen)
  {
    var ws := LocalWrites(crc, compressed, size, nameLen);
    Ranges();
    WriteReadsBack(30, ws, 0);
    WriteReadsBack(30, ws, 2);
    WriteReadsBack(30, ws, 3);
    WriteReadsBack(30, ws, 6);
    WriteReadsBack(30, ws, 7);
    WriteReadsBack(30, ws, 8);
    WriteReadsBack(30, ws, 9);
    WriteReadsBack(30, ws, 10);
  }

  lemma CentralFields(crc: nat, compressed: nat, size: nat, nameLen: nat, attributes: nat, offset: nat)
    requires crc < U32 && compressed < U32 && size < U32 && nameLen < U16 && attributes < U32 && offset < U32
    ensures IsCentral(CentralHeader(crc, compressed, size, nameLen, attributes, offset),
                      crc, compressed, size, nameLen, attributes, offset)
  {
    var ws := CentralWrites(crc, compressed, size, nameLen, attributes, offset);
    Ranges();
    WriteReadsBack(46, ws, 0);
    WriteReadsBack(46, ws, 4);
    WriteReadsBack(46, ws, 7);
    WriteReadsBack(46, ws, 8);
    WriteReadsBack(46, ws, 9);
    WriteReadsBack(46, ws, 10);
    WriteReadsBack(46, ws, 11);
    WriteReadsBack(46, ws, 12);
    UnwrittenIsZero(46, ws, 30, 2);
    UnwrittenIsZero(46, ws, 32, 2);
  }

  lemma LocalOrigin(crc: nat, compressed: nat, size: nat, nameLen: nat)
    requires crc < U32 && compressed < U32 && size < U32 && nameLen < U16
    ensures IsPlainLocal(LocalHeader(crc, compressed, size, nameLen))
  {
    var ws := LocalWrites(crc, compressed, size, nameLen);
    Ranges();
    WriteReadsBack(30, ws, 1);
    WriteReadsBack(30, ws, 4);
    WriteReadsBack(30, ws, 5);
  }

  lemma CentralVersions(crc: nat, compressed: nat, size: nat, nameLen: nat, attributes: nat, offset: nat)
    requires crc < U32 && compressed < U32 && size < U32 && nameLen < U16 && attributes < U32 && offset < U32
    ensures var h := CentralHeader(crc, compressed, size, nameLen, attributes, offset);
            |h| == 46 && At16(h, 4) == UNIX * 256 + 20 && At16(h, 6) == 20 && At16(h, 8) == UTF8_NAMES
  {
    var ws := CentralWrites(crc, compressed, size, nameLen, attributes, offset);
    Ranges();
    WriteReadsBack(46, ws, 1);
    WriteReadsBack(46, ws, 2);
    WriteReadsBack(46, ws, 3);
  }

  lemma CentralRest(crc: nat, compressed: nat, size: nat, nameLen: nat, attributes: nat, offset: nat)
    requires crc < U32 && compressed < U32 && size < U32 && nameLen < U16 && attributes < U32 && offset < U32
    ensures var h := CentralHeader(crc, compressed, size, nameLen, attributes, offset);
            |h| == 46 && At16(h, 12) == 0 && At16(h, 14) == ZIP_EPOCH_DATE && At16(h, 34) == 0 && At16(h, 36) == 0
  {
    var ws := CentralWrites(crc, compressed, size, nameLen, attributes, offset);
    Ranges();
    WriteReadsBack(46, ws, 5);
    WriteReadsBack(46, ws, 6);
    UnwrittenIsZero(46, ws, 34, 2);
    UnwrittenIsZero(46, ws, 36, 2);
  }

  lemma CentralOrigin(crc: nat, compressed: nat, size: nat, nameLen: nat, attributes: nat, offset: nat)
    requires crc < U32 && compressed < U32 && size < U32 && nameLen < U16 && attributes < U32 && offset < U32
    ensures IsMadeByUnix(CentralHeader(crc, compressed, size, nameLen, attributes, offset))
  {
    CentralVersions(crc, compressed, size, nameLen, attributes, offset);
    CentralRest(crc, compressed, size, nameLen, attributes, offset);
  }

  lemma EndFields(count: nat, size: nat, offset: nat)
    requires count < U16 && size < U32 && offset < U32
    ensures IsEnd(EndRecord(count, size, offset), count, size, offset)
  {
    var ws := EndWrites(count, size, offset);
    Ranges();
    WriteReadsBack(22, ws, 0);
    WriteReadsBack(22, ws, 1);
    WriteReadsBack(22, ws, 2);
    WriteReadsBack(22, ws, 3);
    WriteReadsBack(22, ws, 4);
    UnwrittenIsZero(22, ws, 20, 2);
  }

  // ----- The layout of an archive -----

  function LocalRecord(z: Codec, e: Entry): Bytes
  {
    var compressed := z.deflate(e.data);
    LocalHeader(z.crc(e.data), |compressed|, |e.data|, |e.name|) + e.name + compressed
  }

  function CentralRecord(z: Codec, e: Entry, offset: nat): Bytes
  {
    CentralHeader(z.crc(e.data), |z.deflate(e.data)|, |e.data|, |e.name|, Attributes(e.mode), offset) + e.name
  }

  function Locals(z: Codec, es: seq<Entry>): Bytes
  {
    if es == [] then [] else Locals(z, es[..|es| - 1]) + LocalRecord(z, es[|es| - 1])
  }

  /** Where the next local record starts: where those before it end. */
  function Offset(z: Codec, es: seq<Entry>): nat { |Locals(z, es)| }

  function Directory(z: Codec, es: seq<Entry>): Bytes
  {
    if es == [] then []
    else Directory(z, es[..|es| - 1]) + CentralRecord(z, es[|es| - 1], Offset(z, es[..|es| - 1]))
  }

  function Layout(z: Codec, es: seq<Entry>): Bytes
  {
    Locals(z, es) + Directory(z, es) + EndRecord(|es|, |Directory(z, es)|, |Locals(z, es)|)
  }

  /** The sizes of entry `i` and its offset fit the format's fields. */
  ghost predicate EntryFits(z: Codec, es: seq<Entry>, i: nat)
    requires i < |es|
  {
    |es[i].data| < ZIP_LIMIT && |z.deflate(es[i].data)| < ZIP_LIMIT && Offset(z, es[..i]) < ZIP_LIMIT && |es[i].name| < U16
  }

  ghost predicate Fits(z: Codec, es: seq<Entry>)
  {
    |es| < U16 && |Directory(z, es)| < U32 && |Locals(z, es)| < U32 &&
    forall i :: 0 <= i < |es| ==> EntryFits(z, es, i)
  }

  // ----- Reading an archive -----

  datatype Found = Found(name: Bytes, data: Bytes, mode: nat)

  /** The data of the local record at `at`, which must repeat what the directory says. */
  function ReadLocal(z: Codec, b: Bytes, at: nat, name: Bytes, crc: nat, compressed: nat, size: nat): Option<Bytes>
  {
    if at + 30 > |b| || at + 30 + |name| + compressed > |b| then None
    else if At32(b, at) != LOCAL_SIGNATURE || At16(b, at + 8) != DEFLATE || At16(b, at + 6) != UTF8_NAMES then None
    else if At32(b, at + 14) != crc || At32(b, at + 18) != compressed || At32(b, at + 22) != size then None
    else if At16(b, at + 26) != |name| || At16(b, at + 28) != 0 || b[at + 30..at + 30 + |name|] != name then None
    else
      var data := z.inflate(b[at + 30 + |name|..at + 30 + |name| + compressed]);
      if data.None? || |data.value| != size || z.crc(data.value) != crc then None else data
  }

  datatype Header = Header(name: Bytes, crc: nat, compressed: nat, size: nat, attributes: nat, offset: nat)

  function ReadHeader(b: Bytes, at: nat): (r: Option<Header>)
    ensures r.Some? ==> at + 46 <= |b|
  {
    if at + 46 > |b| || At32(b, at) != CENTRAL_SIGNATURE || At16(b, at + 10) != DEFLATE || At16(b, at + 8) != UTF8_NAMES then None
    else if at + 46 + At16(b, at + 28) > |b| || At16(b, at + 30) != 0 || At16(b, at + 32) != 0 then None
    else Some(Header(b[at + 46..at + 46 + At16(b, at + 28)], At32(b, at + 16), At32(b, at + 20), At32(b, at + 24),
                     At32(b, at + 38), At32(b, at + 42)))
  }

  /** The permissions an entry's attributes give, which are honoured only where a
      Unix host wrote them of a regular file. */
  function ReadMode(b: Bytes, at: nat, attributes: nat): Option<nat>
    requires at + 46 <= |b|
  {
    if At16(b, at + 4) / 256 != UNIX || attributes / U16 / 0x1000 != REGULAR then None else Some(attributes / U16 % 512)
  }

  /** The entry whose central header is at `at`. */
  function ReadCentral(z: Codec, b: Bytes, at: nat): Option<Found>
  {
    var h := ReadHeader(b, at);
    if h.None? then None
    else
      var data := ReadLocal(z, b, h.value.offset, h.value.name, h.value.crc, h.value.compressed, h.value.size);
      var mode := ReadMode(b, at, h.value.attributes);
      if data.None? || mode.None? then None else Some(Found(h.value.name, data.value, mode.value))
  }

  /** `count` entries, the first at `at`, each followed by the next. */
  function ReadAll(read: nat -> Option<Found>, at: nat, count: nat): Option<seq<Found>>
    decreases count
  {
    if count == 0 then Some([])
    else
      var first := read(at);
      if first.None? then None
      else
        var rest := ReadAll(read, at + 46 + |first.value.name|, count - 1);
        if rest.None? then None else Some([first.value] + rest.value)
  }

  function DirectoryReader(z: Codec, b: Bytes): nat -> Option<Found>
  {
    (at: nat) => ReadCentral(z, b, at)
  }

  function ReadArchive(z: Codec, b: Bytes): Option<seq<Found>>
  {
    if |b| < 22 then None
    else
      var end := |b| - 22;
      if At32(b, end) != END_SIGNATURE || At16(b, end + 8) != At16(b, end + 10) then None
      else if At32(b, end + 16) + At32(b, end + 12) != end then None
      else ReadAll(DirectoryReader(z, b), At32(b, end + 16), At16(b, end + 10))
  }

  // ----- Round trip -----

  ghost predicate Holds(b: Bytes, at: nat, part: Bytes)
  {
    at + |part| <= |b| && b[at..at + |part|] == part
  }

  lemma HoldsBoth(b: Bytes, at: nat, x: Bytes, y: Bytes)
    requires Holds(b, at, x + y)
    ensures Holds(b, at, x) && Holds(b, at + |x|, y)
  {
    var whole := b[at..at + |x + y|];
    assert whole[..|x|] == x && whole[|x|..] == y;
    assert b[at..at + |x|] == whole[..|x|];
    assert b[at + |x|..at + |x| + |y|] == whole[|x|..];
  }

  lemma HoldsAt(b: Bytes, at: nat, part: Bytes, i: nat)
    requires Holds(b, at, part)
    ensures i + 2 <= |part| ==> At16(b, at + i) == At16(part, i)
    ensures i + 4 <= |part| ==> At32(b, at + i) == At32(part, i)
  {
    if i + 2 <= |part| { LeAtSlice(b, at, at + |part|, i, 2); }
    if i + 4 <= |part| { LeAtSlice(b, at, at + |part|, i, 4); }
  }

  /** The number at `i` of a part is the number at `at + i`. */
  lemma HoldsLocal(b: Bytes, at: nat, h: Bytes, crc: nat, compressed: nat, size: nat, nameLen: nat)
    requires Holds(b, at, h) && IsLocal(h, crc, compressed, size, nameLen)
    ensures At32(b, at) == LOCAL_SIGNATURE && At16(b, at + 8) == DEFLATE && At32(b, at + 14) == crc
    ensures At32(b, at + 18) == compressed && At32(b, at + 22) == size
    ensures At16(b, at + 26) == nameLen && At16(b, at + 28) == 0 && At16(b, at + 6) == UTF8_NAMES
  {
    HoldsAt(b, at, h, 0);
    HoldsAt(b, at, h, 6);
    HoldsAt(b, at, h, 8);
    HoldsAt(b, at, h, 14);
    HoldsAt(b, at, h, 18);
    HoldsAt(b, at, h, 22);
    HoldsAt(b, at, h, 26);
    HoldsAt(b, at, h, 28);
  }

  lemma LocalReads(z: Codec, b: Bytes, at: nat, h: Bytes, e: Entry)
    requires z.Lawful() && IsLocal(h, z.crc(e.data), |z.deflate(e.data)|, |e.data|, |e.name|)
    requires Holds(b, at, h + e.name + z.deflate(e.data))
    ensures ReadLocal(z, b, at, e.name, z.crc(e.data), |z.deflate(e.data)|, |e.data|) == Some(e.data)
  {
    HoldsBoth(b, at, h + e.name, z.deflate(e.data));
    HoldsBoth(b, at, h, e.name);
    HoldsLocal(b, at, h, z.crc(e.data), |z.deflate(e.data)|, |e.data|, |e.name|);
  }

  function Recovered(e: Entry): Found
  {
    Found(e.name, e.data, e.mode % 512)
  }

  lemma AttributesKeepMode(mode: int)
    ensures Attributes(mode) < U32 && Attributes(mode) / U16 % 512 == mode % 512
    ensures Attributes(mode) / U16 / 0x1000 == REGULAR
  {
    assert Attributes(mode) / U16 == 0x8000 + mode % 512;
  }

  lemma HoldsOrigin(b: Bytes, at: nat, h: Bytes)
    requires Holds(b, at, h) && IsMadeByUnix(h)
    ensures At16(b, at + 4) / 256 == UNIX && At16(b, at + 8) == UTF8_NAMES
  {
    HoldsAt(b, at, h, 4);
    HoldsAt(b, at, h, 8);
  }

  lemma HoldsCentral(
    b: Bytes, at: nat, h: Bytes, crc: nat, compressed: nat, size: nat, nameLen: nat, attributes: nat, offset: nat)
    requires Holds(b, at, h) && IsCentral(h, crc, compressed, size, nameLen, attributes, offset)
    ensures At32(b, at) == CENTRAL_SIGNATURE && At16(b, at + 10) == DEFLATE && At32(b, at + 16) == crc
    ensures At32(b, at + 20) == compressed && At32(b, at + 24) == size && At16(b, at + 28) == nameLen
    ensures At16(b, at + 30) == 0 && At16(b, at + 32) == 0 && At32(b, at + 38) == attributes && At32(b, at + 42) == offset
  {
    HoldsAt(b, at, h, 0);
    HoldsAt(b, at, h, 10);
    HoldsAt(b, at, h, 16);
    HoldsAt(b, at, h, 20);
    HoldsAt(b, at, h, 24);
    HoldsAt(b, at, h, 28);
    HoldsAt(b, at, h, 30);
    HoldsAt(b, at, h, 32);
    HoldsAt(b, at, h, 38);
    HoldsAt(b, at, h, 42);
  }

  lemma HeaderReads(b: Bytes, at: nat, h: Bytes, want: Header)
    requires IsCentral(h, want.crc, want.compressed, want.size, |want.name|, want.attributes, want.offset)
    requires Holds(b, at, h + want.name) && IsMadeByUnix(h)
    ensures ReadHeader(b, at) == Some(want) && At16(b, at + 4) / 256 == UNIX
  {
    HoldsBoth(b, at, h, want.name);
    HoldsOrigin(b, at, h);
    HoldsCentral(b, at, h, want.crc, want.compressed, want.size, |want.name|, want.attributes, want.offset);
  }

  /** Wherever both records stand, the reader finds `f` at the central one. */
  ghost predicate Decodes(z: Codec, local: Bytes, central: Bytes, offset: nat, f: Found)
  {
    |central| == 46 + |f.name| &&
    forall b, at :: Holds(b, at, central) && Holds(b, offset, local) ==> ReadCentral(z, b, at) == Some(f)
  }

  lemma EntryDecodes(z: Codec, e: Entry, offset: nat)
    requires z.Lawful() && |e.data| < U32 && |z.deflate(e.data)| < U32 && |e.name| < U16 && offset < U32
    ensures Decodes(z, LocalRecord(z, e), CentralRecord(z, e, offset), offset, Recovered(e))
  {
    var crc, compressed, attributes := z.crc(e.data), |z.deflate(e.data)|, Attributes(e.mode);
    AttributesKeepMode(e.mode);
    LocalFields(crc, compressed, |e.data|, |e.name|);
    CentralFields(crc, compressed, |e.data|, |e.name|, attributes, offset);
    CentralOrigin(crc, compressed, |e.data|, |e.name|, attributes, offset);
    forall b, at | Holds(b, at, CentralRecord(z, e, offset)) && Holds(b, offset, LocalRecord(z, e))
      ensures ReadCentral(z, b, at) == Some(Recovered(e))
    {
      LocalReads(z, b, offset, LocalHeader(crc, compressed, |e.data|, |e.name|), e);
      HeaderReads(b, at, CentralHeader(crc, compressed, |e.data|, |e.name|, attributes, offset),
                  Header(e.name, crc, compressed, |e.data|, attributes, offset));
    }
  }

  function AllRecovered(es: seq<Entry>): (r: seq<Found>)
    ensures |r| == |es|
  {
    seq(|es|, i requires 0 <= i < |es| => Recovered(es[i]))
  }

  /** Record `i` of each kind starts where those before it end. */
  ghost predicate Laid(b: Bytes, start: nat, rs: seq<Bytes>)
  {
    Holds(b, start, Flatten(rs))
  }

  lemma {:induction false} LaidAt(b: Bytes, start: nat, rs: seq<Bytes>, i: nat)
    requires i < |rs| && Laid(b, start, rs)
    ensures Holds(b, start + |Flatten(rs[..i])|, rs[i])
  {
    var n := |rs| - 1;
    HoldsBoth(b, start, Flatten(rs[..n]), rs[n]);
    if i < n {
      LaidAt(b, start, rs[..n], i);
      assert rs[..n][..i] == rs[..i];
    }
  }

  /** Every pair of records decodes, each local at the offset its central names. */
  ghost predicate AllDecode(z: Codec, locals: seq<Bytes>, centrals: seq<Bytes>, found: seq<Found>)
  {
    |locals| == |centrals| == |found| &&
    forall i :: 0 <= i < |found| ==> Decodes(z, locals[i], centrals[i], |Flatten(locals[..i])|, found[i])
  }

  /** At `pos[i]` the reader finds `found[i]`, and the next one follows. */
  ghost predicate FindsAt(read: nat -> Option<Found>, found: seq<Found>, pos: seq<nat>, i: nat)
    requires i < |found| && |pos| == |found| + 1
  {
    read(pos[i]) == Some(found[i]) && pos[i + 1] == pos[i] + 46 + |found[i].name|
  }

  lemma {:induction false} FindsAll(read: nat -> Option<Found>, found: seq<Found>, pos: seq<nat>, i: nat)
    requires i <= |found| && |pos| == |found| + 1 && forall k :: 0 <= k < |found| ==> FindsAt(read, found, pos, k)
    ensures ReadAll(read, pos[i], |found| - i) == Some(found[i..])
    decreases |found| - i
  {
    if i < |found| {
      assert FindsAt(read, found, pos, i);
      FindsAll(read, found, pos, i + 1);
      assert found[i..] == [found[i]] + found[i + 1..];
    }
  }

  /** Where the central records start, and where the last one ends. */
  function Positions(start: nat, rs: seq<Bytes>): (r: seq<nat>)
    ensures |r| == |rs| + 1
  {
    seq(|rs| + 1, i requires 0 <= i <= |rs| => start + |Flatten(rs[..i])|)
  }

  lemma DecodeAt(z: Codec, local: Bytes, central: Bytes, offset: nat, f: Found, b: Bytes, at: nat)
    requires Decodes(z, local, central, offset, f) && Holds(b, at, central) && Holds(b, offset, local)
    ensures DirectoryReader(z, b)(at) == Some(f)
  {
  }

  lemma NextPosition(start: nat, rs: seq<Bytes>, i: nat)
    requires i < |rs|
    ensures Positions(start, rs)[i] == start + |Flatten(rs[..i])|
    ensures Positions(start, rs)[i + 1] == Positions(start, rs)[i] + |rs[i]|
  {
    assert rs[..i + 1] == rs[..i] + [rs[i]];
    FlattenSnoc(rs[..i], rs[i]);
  }

  lemma BothLaid(b: Bytes, start: nat, locals: seq<Bytes>, centrals: seq<Bytes>, i: nat, offset: nat, at: nat)
    requires i < |locals| == |centrals| && Laid(b, 0, locals) && Laid(b, start, centrals)
    requires offset == |Flatten(locals[..i])| && at == start + |Flatten(centrals[..i])|
    ensures Holds(b, offset, locals[i]) && Holds(b, at, centrals[i])
  {
    LaidAt(b, 0, locals, i);
    LaidAt(b, start, centrals, i);
  }

  lemma FindsNext(read: nat -> Option<Found>, found: seq<Found>, start: nat, centrals: seq<Bytes>, i: nat)
    requires i < |found| == |centrals| && |centrals[i]| == 46 + |found[i].name|
    requires read(start + |Flatten(centrals[..i])|) == Some(found[i])
    ensures FindsAt(read, found, Positions(start, centrals), i)
  {
    NextPosition(start, centrals, i);
  }

  /** Wherever both records are, `read` finds `f` there. */
  ghost predicate ReadsBack(
    read: nat -> Option<Found>, b: Bytes, local: Bytes, central: Bytes, offset: nat, f: Found)
  {
    |central| == 46 + |f.name| &&
    forall at :: Holds(b, at, central) && Holds(b, offset, local) ==> read(at) == Some(f)
  }

  lemma DecodedReadsBack(z: Codec, b: Bytes, local: Bytes, central: Bytes, offset: nat, f: Found)
    requires Decodes(z, local, central, offset, f)
    ensures ReadsBack(DirectoryReader(z, b), b, local, central, offset, f)
  {
    forall at | Holds(b, at, central) && Holds(b, offset, local) ensures DirectoryReader(z, b)(at) == Some(f) {
      DecodeAt(z, local, central, offset, f, b, at);
    }
  }

  lemma DirectoryFinds(
    read: nat -> Option<Found>, b: Bytes, start: nat, locals: seq<Bytes>, centrals: seq<Bytes>, found: seq<Found>, i: nat)
    requires i < |found| == |locals| == |centrals| && Laid(b, 0, locals) && Laid(b, start, centrals)
    requires ReadsBack(read, b, locals[i], centrals[i], |Flatten(locals[..i])|, found[i])
    ensures FindsAt(read, found, Positions(start, centrals), i)
  {
    BothLaid(b, start, locals, centrals, i, |Flatten(locals[..i])|, start + |Flatten(centrals[..i])|);
    FindsNext(read, found, start, centrals, i);
  }

  lemma DirectoryReads(z: Codec, b: Bytes, start: nat, locals: seq<Bytes>, centrals: seq<Bytes>, found: seq<Found>)
    requires AllDecode(z, locals, centrals, found) && Laid(b, 0, locals) && Laid(b, start, centrals)
    ensures ReadAll(DirectoryReader(z, b), start, |found|) == Some(found)
  {
    var read, pos := DirectoryReader(z, b), Positions(start, centrals);
    forall i | 0 <= i < |found| ensures FindsAt(read, found, pos, i) {
      DecodedReadsBack(z, b, locals[i], centrals[i], |Flatten(locals[..i])|, found[i]);
      DirectoryFinds(read, b, start, locals, centrals, found, i);
    }
    FindsAll(read, found, pos, 0);
    assert centrals[..0] == [] && found[0..] == found;
  }

  function LocalList(z: Codec, es: seq<Entry>): (r: seq<Bytes>)
    ensures |r| == |es|
  {
    if es == [] then [] else LocalList(z, es[..|es| - 1]) + [LocalRecord(z, es[|es| - 1])]
  }

  function CentralList(z: Codec, es: seq<Entry>): (r: seq<Bytes>)
    ensures |r| == |es|
  {
    if es == [] then [] else CentralList(z, es[..|es| - 1]) + [CentralRecord(z, es[|es| - 1], Offset(z, es[..|es| - 1]))]
  }

  lemma {:induction false} Lists(z: Codec, es: seq<Entry>)
    ensures Flatten(LocalList(z, es)) == Locals(z, es) && Flatten(CentralList(z, es)) == Directory(z, es)
  {
    if es != [] {
      var n := |es| - 1;
      Lists(z, es[..n]);
      FlattenSnoc(LocalList(z, es[..n]), LocalRecord(z, es[n]));
      FlattenSnoc(CentralList(z, es[..n]), CentralRecord(z, es[n], Offset(z, es[..n])));
    }
  }

  lemma {:induction false} ListsAt(z: Codec, es: seq<Entry>, i: nat)
    requires i < |es|
    ensures LocalList(z, es)[..i] == LocalList(z, es[..i])
    ensures LocalList(z, es)[i] == LocalRecord(z, es[i])
    ensures CentralList(z, es)[i] == CentralRecord(z, es[i], Offset(z, es[..i]))
  {
    var n := |es| - 1;
    if i < n {
      ListsAt(z, es[..n], i);
      assert es[..n][..i] == es[..i];
      assert LocalList(z, es)[..i] == LocalList(z, es[..n])[..i];
    } else {
      assert LocalList(z, es)[..i] == LocalList(z, es[..n]);
    }
  }

  lemma ListsDecode(z: Codec, es: seq<Entry>)
    requires z.Lawful() && Fits(z, es)
    ensures AllDecode(z, LocalList(z, es), CentralList(z, es), AllRecovered(es))
  {
    forall i | 0 <= i < |es|
      ensures Decodes(z, LocalList(z, es)[i], CentralList(z, es)[i], |Flatten(LocalList(z, es)[..i])|, AllRecovered(es)[i])
    {
      assert EntryFits(z, es, i);
      ListsAt(z, es, i);
      Lists(z, es[..i]);
      EntryDecodes(z, es[i], Offset(z, es[..i]));
    }
  }

  lemma EndReads(z: Codec, b: Bytes, h: Bytes, count: nat, size: nat, offset: nat)
    requires |b| == offset + size + 22 && Holds(b, offset + size, h) && IsEnd(h, count, size, offset)
    ensures ReadArchive(z, b) == ReadAll(DirectoryReader(z, b), offset, count)
  {
    HoldsAt(b, offset + size, h, 0);
    HoldsAt(b, offset + size, h, 8);
    HoldsAt(b, offset + size, h, 10);
    HoldsAt(b, offset + size, h, 12);
    HoldsAt(b, offset + size, h, 16);
  }

  lemma LayoutHolds(b: Bytes, locals: Bytes, directory: Bytes, end: Bytes)
    requires b == locals + directory + end
    ensures Holds(b, 0, locals) && Holds(b, |locals|, directory) && Holds(b, |locals| + |directory|, end)
  {
  }

  /** A reader that starts from the end record recovers every entry's name, data
      and permissions, in order, each central header pointing at a local header
      that repeats its name, sizes and checksum. */
  lemma ArchiveComesBack(z: Codec, es: seq<Entry>)
    requires z.Lawful() && Fits(z, es)
    ensures ReadArchive(z, Layout(z, es)) == Some(AllRecovered(es))
  {
    var b := Layout(z, es);
    var locals, directory := Locals(z, es), Directory(z, es);
    LayoutHolds(b, locals, directory, EndRecord(|es|, |directory|, |locals|));
    EndFields(|es|, |directory|, |locals|);
    EndReads(z, b, EndRecord(|es|, |directory|, |locals|), |es|, |directory|, |locals|);
    Lists(z, es);
    ListsDecode(z, es);
    DirectoryReads(z, b, |locals|, LocalList(z, es), CentralList(z, es), AllRecovered(es));
  }

  // ----- Writing an archive -----

  lemma NextRecords(z: Codec, es: seq<Entry>, i: nat)
    requires i < |es|
    ensures Locals(z, es[..i + 1]) == Locals(z, es[..i]) + LocalRecord(z, es[i])
    ensures Directory(z, es[..i + 1]) == Directory(z, es[..i]) + CentralRecord(z, es[i], Offset(z, es[..i]))
  {
    assert es[..i + 1][..i] == es[..i] && es[..i + 1][i] == es[i];
  }

  /** The first `i` entries are written. */
  ghost predicate WrittenSoFar(z: Codec, es: seq<Entry>, i: nat, parts: Bytes, directory: Bytes, offset: nat)
    requires i <= |es|
  {
    parts == Locals(z, es[..i]) && directory == Directory(z, es[..i]) && offset == |parts|
  }

  /** Write entry `i`, or fail where a field would not hold its value. */
  method WriteEntry(z: Codec, es: seq<Entry>, i: nat, parts: Bytes, directory: Bytes, offset: nat)
    returns (ok: bool, parts': Bytes, directory': Bytes, offset': nat)
    requires i < |es| && WrittenSoFar(z, es, i, parts, directory, offset)
    ensures ok <==> EntryFits(z, es, i)
    ensures ok ==> WrittenSoFar(z, es, i + 1, parts', directory', offset')
  {
    ok, parts', directory', offset' := false, parts, directory, offset;
    var entry := es[i];
    var compressed := z.deflate(entry.data);
    var crc := z.crc(entry.data);
    if |entry.data| >= ZIP_LIMIT || |compressed| >= ZIP_LIMIT || offset >= ZIP_LIMIT {
      return;
    }
    if |entry.name| > 0xffff {
      return;
    }
    var local := LocalHeader(crc, |compressed|, |entry.data|, |entry.name|);
    var central := CentralHeader(crc, |compressed|, |entry.data|, |entry.name|, Attributes(entry.mode), offset);
    NextRecords(z, es, i);
    ok := true;
    parts' := parts + (local + entry.name + compressed);
    directory' := directory + (central + entry.name);
    offset' := offset + |local| + |entry.name| + |compressed|;
  }

  /** Writes the archive, or fails exactly where a field would not hold its value. */
  method ZipArchive(z: Codec, entries: seq<Entry>) returns (r: Result<Bytes>)
    ensures r.Ok? <==> Fits(z, entries)
    ensures r.Ok? ==> r.value == Layout(z, entries)
  {
    if |entries| > 0xffff {
      return Err;
    }
    var parts: Bytes, directory: Bytes, offset := [], [], 0;
    for i := 0 to |entries|
      invariant WrittenSoFar(z, entries, i, parts, directory, offset)
      invariant forall k :: 0 <= k < i ==> EntryFits(z, entries, k)
    {
      var ok;
      ok, parts, directory, offset := WriteEntry(z, entries, i, parts, directory, offset);
      if !ok {
        return Err;
      }
    }
    assert entries[..|entries|] == entries;
    if |directory| > 0xffff_ffff || offset > 0xffff_ffff {
      return Err;
    }
    r := Ok(parts + directory + EndRecord(|entries|, |directory|, offset));
  }

  // ----- What fits -----

  lemma {:induction false} OffsetsGrow(z: Codec, es: seq<Entry>, i: nat)
    requires i < |es|
    ensures Offset(z, es[..i]) + 30 + |es[i].name| + |z.deflate(es[i].data)| <= Offset(z, es)
  {
    var n := |es| - 1;
    if i < n {
      OffsetsGrow(z, es[..n], i);
      assert es[..n][..i] == es[..i] && es[..n][i] == es[i];
    }
  }

  /** An archive that stays below 4 GiB is written, as long as there are no more
      entries, no longer names and no larger files than their fields hold. */
  lemma SmallArchivesFit(z: Codec, es: seq<Entry>)
    requires |Layout(z, es)| < ZIP_LIMIT && |es| < U16
    requires forall i :: 0 <= i < |es| ==> |es[i].name| < U16 && |es[i].data| < ZIP_LIMIT
    ensures Fits(z, es)
  {
    forall i | 0 <= i < |es| ensures EntryFits(z, es, i) { OffsetsGrow(z, es, i); }
  }
}
