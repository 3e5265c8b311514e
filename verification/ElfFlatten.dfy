/** Flattening an ELF32 firmware file into the raw memory image its load segments describe. */
module ElfFlatten {
  import opened Wrappers

  newtype Byte = b: int | 0 <= b < 256

  const PT_LOAD: nat := 1
  const U32: nat := 0x1_0000_0000
  const U32_MAX: nat := 0xffff_ffff
  const MAX_RAW: nat := 0x4_0000

  // ---- The file ----

  predicate Has(elf: seq<Byte>, offset: nat, count: nat) {
    offset + count <= |elf|
  }

  function U16(bytes: seq<Byte>, offset: nat): (r: nat)
    requires Has(bytes, offset, 2)
    ensures r < 0x1_0000
  {
    bytes[offset] as nat + 0x100 * (bytes[offset + 1] as nat)
  }

  function U32At(bytes: seq<Byte>, offset: nat): (r: nat)
    requires Has(bytes, offset, 4)
    ensures r < U32
  {
    U16(bytes, offset) + 0x1_0000 * U16(bytes, offset + 2)
  }

  datatype Segment = Segment(fileOff: nat, paddr: nat, filesz: nat)

  datatype Range = Range(lo: nat, hi: nat)

  datatype Header = Header(phoff: nat, phentsize: nat, phnum: nat)

  predicate IsElf32Little(elf: seq<Byte>) {
    |elf| >= 6 && elf[..4] == [0x7f, 0x45, 0x4c, 0x46] && elf[4] == 1 && elf[5] == 1
  }

  function ReadHeader(elf: seq<Byte>): Option<Header> {
    if IsElf32Little(elf) && Has(elf, 44, 2) then Some(Header(U32At(elf, 28), U16(elf, 42), U16(elf, 44))) else None
  }

  /** An entry that puts bytes into the image, or `None` for one that does not. */
  function Entry(elf: seq<Byte>, off: nat): Option<Segment>
    requires EntryReadable(elf, off)
  {
    if U32At(elf, off) != PT_LOAD || U32At(elf, off + 16) == 0 then None
    else Some(Segment(U32At(elf, off + 4), U32At(elf, off + 12), U32At(elf, off + 16)))
  }

  predicate EntryReadable(elf: seq<Byte>, off: nat) {
    Has(elf, off, 4) && (U32At(elf, off) == PT_LOAD ==> Has(elf, off, 20))
  }

  function EntryOff(h: Header, i: nat): nat {
    h.phoff + i * h.phentsize
  }

  predicate EntriesReadable(elf: seq<Byte>, h: Header, upTo: nat) {
    forall i: nat :: i < upTo ==> EntryReadable(elf, EntryOff(h, i))
  }

  /** The load segments among the first `upTo` entries, in file order. */
  function Segments(elf: seq<Byte>, h: Header, upTo: nat): seq<Segment>
    requires EntriesReadable(elf, h, upTo)
  {
    if upTo == 0 then []
    else
      var before := Segments(elf, h, upTo - 1);
      match Entry(elf, EntryOff(h, upTo - 1))
      case None => before
      case Some(s) => before + [s]
  }

  /** A little-endian number, the least significant byte first. */
  function Little(bytes: seq<Byte>): nat {
    if bytes == [] then 0 else bytes[0] as nat + 0x100 * Little(bytes[1..])
  }

  lemma U16IsLittle(bytes: seq<Byte>, offset: nat)
    requires Has(bytes, offset, 2)
    ensures U16(bytes, offset) == Little(bytes[offset..offset + 2])
  {
    var b := bytes[offset..offset + 2];
    assert b[1..] == [bytes[offset + 1]] && b[1..][1..] == [];
    assert Little(b[1..]) == bytes[offset + 1] as nat;
  }

  lemma U32IsLittle(bytes: seq<Byte>, offset: nat)
    requires Has(bytes, offset, 4)
    ensures U32At(bytes, offset) == Little(bytes[offset..offset + 4])
  {
    var b := bytes[offset..offset + 4];
    assert b[1..][1..] == bytes[offset + 2..offset + 4];
    assert Little(b) == b[0] as nat + 0x100 * Little(b[1..]);
    assert Little(b[1..]) == b[1] as nat + 0x100 * Little(b[1..][1..]);
    U16IsLittle(bytes, offset);
    U16IsLittle(bytes, offset + 2);
  }

  /** An entry is used exactly if `p_type` is PT_LOAD and `p_filesz` is not zero, and gives `p_offset`, `p_paddr` and
      `p_filesz` as they stand in an Elf32_Phdr. */
  lemma EntryFields(elf: seq<Byte>, off: nat)
    requires EntryReadable(elf, off)
    ensures Entry(elf, off).Some? <==>
            Little(elf[off..off + 4]) == 1 && Has(elf, off, 20) && Little(elf[off + 16..off + 20]) != 0
    ensures Entry(elf, off).Some? ==>
              && Little(elf[off + 4..off + 8]) == Entry(elf, off).value.fileOff
              && Little(elf[off + 12..off + 16]) == Entry(elf, off).value.paddr
              && Little(elf[off + 16..off + 20]) == Entry(elf, off).value.filesz
  {
    hide U16, U32At, Little;
    U32IsLittle(elf, off);
    if Has(elf, off, 20) {
      U32IsLittle(elf, off + 4);
      U32IsLittle(elf, off + 12);
      U32IsLittle(elf, off + 16);
    }
  }

  /** `e_phoff`, `e_phentsize` and `e_phnum` as they stand in an Elf32_Ehdr of a 32-bit little-endian file. */
  lemma HeaderFields(elf: seq<Byte>)
    ensures ReadHeader(elf).Some? <==>
            |elf| >= 46 && elf[..4] == [0x7f, 0x45, 0x4c, 0x46] && elf[4] == 1 && elf[5] == 1
    ensures ReadHeader(elf).Some? ==>
              && Little(elf[28..32]) == ReadHeader(elf).value.phoff
              && Little(elf[42..44]) == ReadHeader(elf).value.phentsize
              && Little(elf[44..46]) == ReadHeader(elf).value.phnum
  {
    hide U16, U32At, Little;
    if |elf| >= 46 {
      U32IsLittle(elf, 28);
      U16IsLittle(elf, 42);
      U16IsLittle(elf, 44);
    }
  }

  // ---- The image ----

  predicate Covers(s: Segment, a: nat) {
    s.paddr <= a < s.paddr + s.filesz
  }

  predicate InFile(elf: seq<Byte>, s: Segment) {
    s.fileOff + s.filesz <= |elf|
  }

  /** What the image holds at physical address `a`: later segments overwrite earlier ones. */
  function ByteAt(elf: seq<Byte>, segs: seq<Segment>, a: nat): Byte
    requires forall s :: s in segs ==> InFile(elf, s)
  {
    if segs == [] then 0
    else
      var last := segs[|segs| - 1];
      assert last in segs && InFile(elf, last);
      if Covers(last, a) then elf[last.fileOff + (a - last.paddr)] else ByteAt(elf, segs[..|segs| - 1], a)
  }

  /** Segment `j` covers the address and no later one does. */
  predicate CoversLast(segs: seq<Segment>, j: nat, a: nat) {
    j < |segs| && Covers(segs[j], a) && forall i :: j < i < |segs| ==> !Covers(segs[i], a)
  }

  /** The byte is that of the last segment that covers the address. */
  lemma {:induction false} LastCoveringWins(elf: seq<Byte>, segs: seq<Segment>, a: nat, j: nat)
    requires (forall s :: s in segs ==> InFile(elf, s)) && CoversLast(segs, j, a)
    ensures InFile(elf, segs[j]) && ByteAt(elf, segs, a) == elf[segs[j].fileOff + (a - segs[j].paddr)]
    decreases |segs|
  {
    var front := segs[..|segs| - 1];
    assert segs[j] in segs;
    if j < |front| {
      LastCoveringWins(elf, front, a, j);
    }
  }

  lemma {:induction false} UncoveredIsZero(elf: seq<Byte>, segs: seq<Segment>, a: nat)
    requires (forall s :: s in segs ==> InFile(elf, s)) && forall i :: 0 <= i < |segs| ==> !Covers(segs[i], a)
    ensures ByteAt(elf, segs, a) == 0
    decreases |segs|
  {
    if segs != [] {
      UncoveredIsZero(elf, segs[..|segs| - 1], a);
    }
  }

  ghost predicate Bounds(segs: seq<Segment>, lo: nat, hi: nat) {
    && (forall s :: s in segs ==> lo <= s.paddr && s.paddr + s.filesz <= hi)
    && (segs != [] ==> (exists s :: s in segs && s.paddr == lo) && (exists s :: s in segs && s.paddr + s.filesz == hi))
    && (segs == [] ==> lo == U32_MAX && hi == 0)
  }

  /** The image of the segments, from address `lo` up to `hi`. */
  function Image(elf: seq<Byte>, segs: seq<Segment>, lo: nat, hi: nat): seq<Byte>
    requires lo <= hi && forall s :: s in segs ==> InFile(elf, s)
  {
    seq(hi - lo, k requires 0 <= k => ByteAt(elf, segs, lo + k))
  }

  predicate ValidRaw(raw: seq<Byte>) {
    && |raw| >= 8
    && raw[..4] != [0x7f, 0x45, 0x4c, 0x46]
    && U32At(raw, 0) / 0x100_0000 == 0x10
    && U32At(raw, 4) % 2 == 1
    && U32At(raw, 4) - 1 < |raw|
  }

  /** The image begins with a stack pointer in 0x10000000..0x10ffffff and a reset vector, odd and inside the image. */
  lemma RawStartsCode(raw: seq<Byte>)
    ensures ValidRaw(raw) <==>
            && |raw| >= 8 && raw[..4] != [0x7f, 0x45, 0x4c, 0x46]
            && 0x1000_0000 <= Little(raw[0..4]) < 0x1100_0000
            && Little(raw[4..8]) % 2 == 1 && Little(raw[4..8]) <= |raw|
  {
    hide U16, U32At, Little;
    if |raw| >= 8 {
      U32IsLittle(raw, 0);
      U32IsLittle(raw, 4);
    }
  }

  /** The file is one the conversion accepts, with these segments and this extent. */
  ghost predicate Accepted(elf: seq<Byte>, segs: seq<Segment>, lo: nat, hi: nat) {
    && ReadHeader(elf).Some?
    && EntriesReadable(elf, ReadHeader(elf).value, ReadHeader(elf).value.phnum)
    && segs == Segments(elf, ReadHeader(elf).value, ReadHeader(elf).value.phnum)
    && segs != []
    && (forall s :: s in segs ==> s.paddr + s.filesz < U32 && InFile(elf, s))
    && Bounds(segs, lo, hi)
    && lo < hi <= lo + MAX_RAW
    && ValidRaw(Image(elf, segs, lo, hi))
  }

  // ---- The two passes ----

  /** First pass: the lowest address and the highest end, or `None` where the tool stops. */
  method Extent(elf: seq<Byte>, h: Header) returns (r: Option<Range>)
    ensures r.Some? <==> EntriesReadable(elf, h, h.phnum)
                         && forall s :: s in Segments(elf, h, h.phnum) ==> s.paddr + s.filesz < U32
    ensures r.Some? ==> Bounds(Segments(elf, h, h.phnum), r.value.lo, r.value.hi)
  {
    var lo: nat, hi: nat := U32_MAX, 0;
    for index := 0 to h.phnum
      invariant EntriesReadable(elf, h, index)
      invariant forall s :: s in Segments(elf, h, index) ==> s.paddr + s.filesz < U32
      invariant Bounds(Segments(elf, h, index), lo, hi)
    {
      var off := EntryOff(h, index);
      if !EntryReadable(elf, off) {
        assert !EntriesReadable(elf, h, h.phnum);
        return None;
      }
      assert EntryReadable(elf, EntryOff(h, index));
      match Entry(elf, off) {
        case None =>
        case Some(s) =>
          assert Segments(elf, h, index + 1) == Segments(elf, h, index) + [s];
          if s.paddr + s.filesz >= U32 {
            SegmentsGrow(elf, h, index + 1, h.phnum, s);
            return None;
          }
          BoundsGrow(Segments(elf, h, index), lo, hi, s);
          lo := if s.paddr < lo then s.paddr else lo;
          hi := if hi < s.paddr + s.filesz then s.paddr + s.filesz else hi;
      }
    }
    r := Some(Range(lo, hi));
  }

  /** A segment found stays found. */
  lemma {:induction false} SegmentsGrow(elf: seq<Byte>, h: Header, m: nat, n: nat, s: Segment)
    requires m <= n && EntriesReadable(elf, h, m) && s in Segments(elf, h, m)
    ensures EntriesReadable(elf, h, n) ==> s in Segments(elf, h, n)
    decreases n
  {
    if m < n && EntriesReadable(elf, h, n) {
      SegmentsGrow(elf, h, m, n - 1, s);
    }
  }

  lemma BoundsGrow(segs: seq<Segment>, lo: nat, hi: nat, s: Segment)
    requires Bounds(segs, lo, hi) && s.filesz > 0 && s.paddr + s.filesz < U32
    ensures Bounds(segs + [s], if s.paddr < lo then s.paddr else lo,
                   if hi < s.paddr + s.filesz then s.paddr + s.filesz else hi)
  {
    var all := segs + [s];
    assert all[|segs|] == s;
    assert forall t :: t in segs ==> t in all;
  }

  /** `raw[dst..].copy_from_slice(..)`. */
  method CopySegment(elf: seq<Byte>, s: Segment, raw: array<Byte>, lo: nat)
    requires InFile(elf, s) && lo <= s.paddr && s.paddr + s.filesz <= lo + raw.Length
    modifies raw
    ensures forall k :: 0 <= k < raw.Length ==>
                          raw[k] == if Covers(s, lo + k) then elf[s.fileOff + (lo + k - s.paddr)] else old(raw[k])
  {
    var dst := s.paddr - lo;
    for i := 0 to s.filesz
      invariant forall k :: 0 <= k < raw.Length ==>
                              raw[k] == if dst <= k < dst + i then elf[s.fileOff + (k - dst)] else old(raw[k])
    {
      raw[dst + i] := elf[s.fileOff + i];
    }
  }

  /** Second pass: fill the zeroed buffer in place, segment by segment. */
  method Fill(elf: seq<Byte>, h: Header, raw: array<Byte>, lo: nat) returns (ok: bool)
    requires EntriesReadable(elf, h, h.phnum)
    requires forall s :: s in Segments(elf, h, h.phnum) ==> lo <= s.paddr && s.paddr + s.filesz <= lo + raw.Length
    requires forall k :: 0 <= k < raw.Length ==> raw[k] == 0
    modifies raw
    ensures ok <==> forall s :: s in Segments(elf, h, h.phnum) ==> InFile(elf, s)
    ensures ok ==> raw[..] == Image(elf, Segments(elf, h, h.phnum), lo, lo + raw.Length)
  {
    hide U16, U32At, Covers;
    for index := 0 to h.phnum
      invariant forall s :: s in Segments(elf, h, index) ==> InFile(elf, s)
      invariant forall k :: 0 <= k < raw.Length ==> raw[k] == ByteAt(elf, Segments(elf, h, index), lo + k)
    {
      var off := EntryOff(h, index);
      assert EntryReadable(elf, off);
      match Entry(elf, off) {
        case None =>
        case Some(s) =>
          ghost var segs := Segments(elf, h, index);
          assert Segments(elf, h, index + 1) == segs + [s];
          SegmentsGrow(elf, h, index + 1, h.phnum, s);
          if !InFile(elf, s) {
            return false;
          }
          CopySegment(elf, s, raw, lo);
          assert (segs + [s])[..|segs|] == segs;
      }
    }
    ok := true;
  }

  /** The conversion succeeds on exactly the accepted files, and its result is their image. */
  method ElfToRaw(elf: seq<Byte>) returns (raw: Option<seq<Byte>>, ghost segs: seq<Segment>, ghost lo: nat, ghost hi: nat)
    ensures raw.Some? ==> Accepted(elf, segs, lo, hi) && raw.value == Image(elf, segs, lo, hi)
    ensures raw.None? ==> forall ss, l, u :: !Accepted(elf, ss, l, u)
  {
    segs, lo, hi := [], 0, 0;
    var header := ReadHeader(elf);
    if header.None? {
      return None, segs, lo, hi;
    }
    var h := header.value;
    var extent := Extent(elf, h);
    if extent.None? {
      return None, segs, lo, hi;
    }
    segs := Segments(elf, h, h.phnum);
    var min, max := extent.value.lo, extent.value.hi;
    lo, hi := min, max;
    BoundsUnique(segs, lo, hi);
    if min == U32_MAX || max <= min {
      return None, segs, lo, hi;
    }
    if max - min > MAX_RAW {
      return None, segs, lo, hi;
    }
    var buffer := new Byte[max - min](_ => 0);
    var filled := Fill(elf, h, buffer, min);
    if !filled {
      return None, segs, lo, hi;
    }
    if !ValidRaw(buffer[..]) {
      return None, segs, lo, hi;
    }
    raw := Some(buffer[..]);
  }

  lemma BoundsUnique(segs: seq<Segment>, lo: nat, hi: nat)
    requires Bounds(segs, lo, hi)
    ensures forall l, u :: Bounds(segs, l, u) ==> l == lo && u == hi
  {
  }
}
