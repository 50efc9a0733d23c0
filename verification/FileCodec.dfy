/** How headers, the free map and the directory are laid out in bytes, and that reading back what
    was written gives the same thing. */
module FileCodec {
  import opened Bytes
  import opened Disk

  predicate Int32(n: int) { -0x8000_0000 <= n < 0x8000_0000 }

  // ---- file headers: 32 words ----

  function HeaderWords(h: Header): seq<int> { [h.numBytes, h.numSectors] + h.slots }

  ghost predicate Writable(h: Header) {
    |h.slots| == NUM_DIRECT && Int32(h.numBytes) && Int32(h.numSectors) && forall i :: 0 <= i < NUM_DIRECT ==> Int32(h.slots[i])
  }

  function EncodeHeader(h: Header): (s: Sector)
    requires |h.slots| == NUM_DIRECT
    ensures forall k :: 0 <= k < SECTOR_SIZE ==> s[k] == BytesOf(HeaderWords(h)[k / 4], 4)[k % 4]
  {
    var words := HeaderWords(h);
    var bytes := seq<Byte>(SECTOR_SIZE, (k: nat) requires k < SECTOR_SIZE => BytesOf(words[k / 4], 4)[k % 4]);
    bytes
  }

  function WordAt(s: Sector, i: nat): int
    requires i < 32
  {
    Assemble(s[4 * i..4 * i + 4])
  }

  function DecodeHeader(s: Sector): (h: Header)
    ensures |h.slots| == NUM_DIRECT
  {
    Header(WordAt(s, 0), WordAt(s, 1), seq(NUM_DIRECT, (i: nat) requires i < NUM_DIRECT => WordAt(s, i + 2)))
  }

  lemma WordBack(h: Header, i: nat)
    requires Writable(h) && i < 32
    ensures WordAt(EncodeHeader(h), i) == HeaderWords(h)[i]
  {
    var w := HeaderWords(h)[i];
    var s := EncodeHeader(h);
    assert s[4 * i..4 * i + 4] == BytesOf(w, 4) by {
      forall k | 0 <= k < 4 ensures s[4 * i..4 * i + 4][k] == BytesOf(w, 4)[k] {
        assert (4 * i + k) / 4 == i && (4 * i + k) % 4 == k;
      }
    }
    ReadsBackWhatWasWritten(w, 4);
  }

  /** Words 0 and 1 are the file's bytes and sectors, the rest its sector numbers in order. */
  lemma HeaderLayout(h: Header)
    requires Writable(h)
    ensures WordAt(EncodeHeader(h), 0) == h.numBytes && WordAt(EncodeHeader(h), 1) == h.numSectors
    ensures forall i :: 0 <= i < NUM_DIRECT ==> WordAt(EncodeHeader(h), i + 2) == h.slots[i]
  {
    hide EncodeHeader, WordAt;
    WordBack(h, 0);
    WordBack(h, 1);
    forall i | 0 <= i < NUM_DIRECT ensures WordAt(EncodeHeader(h), i + 2) == h.slots[i] {
      WordBack(h, i + 2);
      assert HeaderWords(h)[i + 2] == h.slots[i];
    }
  }

  /** A header written to its sector is read back. */
  lemma HeaderRoundTrip(h: Header)
    requires Writable(h)
    ensures DecodeHeader(EncodeHeader(h)) == h
  {
    hide EncodeHeader, WordAt;
    HeaderLayout(h);
  }

  // ---- the free map: one bit a sector ----

  function Pack(bits: seq<bool>): nat {
    if bits == [] then 0 else (if bits[0] then 1 else 0) + 2 * Pack(bits[1..])
  }

  function UnpackBits(v: nat, n: nat): (b: seq<bool>)
    ensures |b| == n
  {
    if n == 0 then [] else [v % 2 == 1] + UnpackBits(v / 2, n - 1)
  }

  lemma {:induction false} PackRoundTrip(bits: seq<bool>)
    ensures UnpackBits(Pack(bits), |bits|) == bits
  {
    if bits != [] { PackRoundTrip(bits[1..]); }
  }

  lemma {:induction false} PackBound(bits: seq<bool>)
    ensures Pack(bits) < Pow2(|bits|)
  {
    if bits != [] { PackBound(bits[1..]); }
  }

  lemma TwoFiveSix()
    ensures Pow2(8) == 256
  {
    assert Pow2(4) == 16;
  }

  type Marks = b: seq<bool> | |b| == NUM_SECTORS witness seq(NUM_SECTORS, i => false)

  function MapByte(bits: Marks, k: nat): Byte
    requires k < SECTOR_SIZE
  {
    PackBound(bits[8 * k..8 * k + 8]);
    TwoFiveSix();
    Pack(bits[8 * k..8 * k + 8])
  }

  /** BitMap::WriteBack's bytes: bit i is bit i % 8 of byte i / 8. */
  function EncodeMap(bits: Marks): (c: seq<Byte>)
    ensures |c| == SECTOR_SIZE
  {
    seq(SECTOR_SIZE, (k: nat) requires k < SECTOR_SIZE => MapByte(bits, k))
  }

  function DecodeMap(c: seq<Byte>): (bits: Marks)
    requires |c| == SECTOR_SIZE
  {
    var b := seq(NUM_SECTORS, (i: nat) requires i < NUM_SECTORS => UnpackBits(c[i / 8], 8)[i % 8]);
    b
  }

  lemma MapRoundTrip(bits: Marks)
    ensures DecodeMap(EncodeMap(bits)) == bits
  {
    hide Pack, UnpackBits;
    forall i | 0 <= i < NUM_SECTORS ensures DecodeMap(EncodeMap(bits))[i] == bits[i] {
      var k := i / 8;
      PackRoundTrip(bits[8 * k..8 * k + 8]);
      assert i == 8 * k + i % 8;
    }
  }

  lemma {:induction false} PackedBit(bits: seq<bool>, i: nat)
    requires i < |bits|
    ensures Pow2(i) > 0 && (Pack(bits) / Pow2(i) % 2 == 1 <==> bits[i])
    decreases i
  {
    if i > 0 {
      PackedBit(bits[1..], i - 1);
      var p := Pow2(i - 1);
      var v := Pack(bits[1..]);
      HalfFirst(if bits[0] then 1 else 0, v, p);
    }
  }

  lemma HalfFirst(low: int, v: nat, p: nat)
    requires 0 <= low < 2 && p > 0
    ensures (low + 2 * v) / (2 * p) == v / p
  {
    var q := v / p;
    var r := v % p;
    assert v == p * q + r;
    assert low + 2 * v == (2 * p) * q + (low + 2 * r);
    assert 0 <= low + 2 * r < 2 * p;
    QuotientIs(low + 2 * v, 2 * p, q, low + 2 * r);
  }

  lemma QuotientIs(n: nat, d: nat, q: nat, r: nat)
    requires d > 0 && n == d * q + r && r < d
    ensures n / d == q
  {
    var k := n / d - q;
    assert d * (n / d) + n % d == n;
    assert d * k == r - n % d;
    if k >= 1 { AtLeast(d, k); } else if k <= -1 { AtLeast(d, -k); }
  }

  lemma AtLeast(d: nat, k: int)
    requires k >= 1
    ensures d * k >= d
  {
  }

  /** Sector i's mark is bit i % 8 of byte i / 8. */
  lemma MapLayout(bits: Marks, i: nat)
    requires i < NUM_SECTORS
    ensures Pow2(i % 8) > 0 && (EncodeMap(bits)[i / 8] / Pow2(i % 8) % 2 == 1 <==> bits[i])
  {
    hide Pack;
    PackedBit(bits[8 * (i / 8)..8 * (i / 8) + 8], i % 8);
    assert i == 8 * (i / 8) + i % 8;
  }

  // ---- the directory: ten entries of twenty bytes ----

  const DIR_ENTRIES := 10
  const ENTRY_SIZE := 20
  const NAME_LENGTH := 9 // FileNameMaxLen
  const DIR_SIZE := DIR_ENTRIES * ENTRY_SIZE

  /** A name as strncpy leaves it in an entry: at most nine characters, padded with zeros. */
  type Name = n: seq<Byte> | |n| == NAME_LENGTH witness seq(NAME_LENGTH, i => 0)

  datatype Entry = Entry(inUse: bool, sector: int, name: Name)

  type Table = t: seq<Entry> | |t| == DIR_ENTRIES witness seq(DIR_ENTRIES, i => Entry(false, 0, seq(NAME_LENGTH, j => 0)))

  /** A boolean, padding, the sector, the name with its spare character, padding. */
  function EntryBytes(e: Entry): (b: seq<Byte>)
    ensures |b| == ENTRY_SIZE
  {
    [if e.inUse then 1 else 0, 0, 0, 0] + BytesOf(e.sector, 4) + e.name + [0, 0, 0]
  }

  function EntryOf(b: seq<Byte>): Entry
    requires |b| == ENTRY_SIZE
  {
    Entry(b[0] != 0, Assemble(b[4..8]), b[8..17])
  }

  lemma EntryLayout(e: Entry)
    requires Int32(e.sector)
    ensures var b := EntryBytes(e); b[0] == (if e.inUse then 1 else 0) && Assemble(b[4..8]) == e.sector && b[8..17] == e.name
  {
    var b := EntryBytes(e);
    assert b[4..8] == BytesOf(e.sector, 4);
    assert b[8..17] == e.name;
    ReadsBackWhatWasWritten(e.sector, 4);
  }

  lemma EntryRoundTrip(e: Entry)
    requires Int32(e.sector)
    ensures EntryOf(EntryBytes(e)) == e
  {
    hide EntryBytes;
    EntryLayout(e);
  }

  function EncodeTable(t: Table): (c: seq<Byte>)
    ensures |c| == DIR_SIZE
  {
    seq(DIR_SIZE, (k: nat) requires k < DIR_SIZE => EntryBytes(t[k / ENTRY_SIZE])[k % ENTRY_SIZE])
  }

  function DecodeTable(c: seq<Byte>): (t: Table)
    requires |c| == DIR_SIZE
  {
    var t := seq(DIR_ENTRIES, (i: nat) requires i < DIR_ENTRIES => EntryOf(c[ENTRY_SIZE * i..ENTRY_SIZE * i + ENTRY_SIZE]));
    t
  }

  lemma EntryAt(t: Table, i: nat)
    requires i < DIR_ENTRIES
    ensures EncodeTable(t)[ENTRY_SIZE * i..ENTRY_SIZE * i + ENTRY_SIZE] == EntryBytes(t[i])
  {
    hide EntryBytes;
    var slice := EncodeTable(t)[ENTRY_SIZE * i..ENTRY_SIZE * i + ENTRY_SIZE];
    forall k | 0 <= k < ENTRY_SIZE ensures slice[k] == EntryBytes(t[i])[k] {
      assert (ENTRY_SIZE * i + k) / ENTRY_SIZE == i && (ENTRY_SIZE * i + k) % ENTRY_SIZE == k;
    }
  }

  lemma TableRoundTrip(t: Table)
    requires forall i :: 0 <= i < DIR_ENTRIES ==> Int32(t[i].sector)
    ensures DecodeTable(EncodeTable(t)) == t
  {
    hide EntryBytes, EntryOf;
    var c := EncodeTable(t);
    forall i | 0 <= i < DIR_ENTRIES ensures DecodeTable(c)[i] == t[i] {
      EntryAt(t, i);
      EntryRoundTrip(t[i]);
    }
  }

  /** Entry i takes bytes 20 i to 20 i + 19: in use, the sector from byte 4 on, the name from byte 8 on. */
  lemma TableLayout(t: Table, i: nat)
    requires i < DIR_ENTRIES && Int32(t[i].sector)
    ensures var c := EncodeTable(t);
            && (c[20 * i] == 1 <==> t[i].inUse) && (c[20 * i] == 0 <==> !t[i].inUse)
            && Assemble(c[20 * i + 4..20 * i + 8]) == t[i].sector
            && c[20 * i + 8..20 * i + 17] == t[i].name
  {
    hide EntryBytes;
    var c := EncodeTable(t);
    EntryAt(t, i);
    EntryLayout(t[i]);
    var b := EntryBytes(t[i]);
    assert c[20 * i] == c[20 * i..20 * i + 20][0] == b[0];
    assert c[20 * i + 4..20 * i + 8] == c[20 * i..20 * i + 20][4..8] == b[4..8];
    assert c[20 * i + 8..20 * i + 17] == c[20 * i..20 * i + 20][8..17] == b[8..17];
  }

  // ---- names ----

  /** A C string's characters are not zero. */
  predicate IsCString(s: seq<Byte>) { forall i :: 0 <= i < |s| ==> s[i] != 0 }

  /** strncpy with FileNameMaxLen. */
  function Key(s: seq<Byte>): Name {
    var n := seq<Byte>(NAME_LENGTH, (i: nat) requires i < NAME_LENGTH => if i < |s| then s[i] else 0);
    n
  }

  /** strncmp of a stored name and a C string, from place i: equal so far, to the end or a zero. */
  predicate StrnEqual(a: Name, s: seq<Byte>, i: nat)
    decreases NAME_LENGTH - i
  {
    i >= NAME_LENGTH
    || (a[i] == (if i < |s| then s[i] else 0) && (a[i] == 0 || StrnEqual(a, s, i + 1)))
  }

  /** Comparing a stored name with a C string is comparing keys. */
  lemma {:induction false} StrncmpIsKey(t: seq<Byte>, s: seq<Byte>, i: nat)
    requires IsCString(t) && IsCString(s) && i <= NAME_LENGTH
    requires forall j :: 0 <= j < i ==> Key(t)[j] == Key(s)[j] != 0
    ensures StrnEqual(Key(t), s, i) <==> Key(t) == Key(s)
    decreases NAME_LENGTH - i
  {
    if i < NAME_LENGTH {
      if Key(t)[i] == Key(s)[i] {
        if Key(t)[i] == 0 {
          assert |t| <= i && |s| <= i;
          assert forall j :: i <= j < NAME_LENGTH ==> Key(t)[j] == Key(s)[j] == 0;
        } else {
          StrncmpIsKey(t, s, i + 1);
        }
      }
    }
  }
}
