/** The bitmap of userprog/bitmap.cc: bits packed into 32-bit words, and what its searches and
    counts mean for the sequence of bits they stand for. */
module Bits {
  /** What BitMap::Find returns: the smallest clear bit from i on, or -1. */
  function FirstClear(bits: seq<bool>, i: nat): (r: int)
    requires i <= |bits|
    ensures r == -1 || i <= r < |bits|
    ensures r != -1 ==> !bits[r]
    ensures forall j :: i <= j < (if r == -1 then |bits| else r) ==> bits[j]
    decreases |bits| - i
  {
    if i == |bits| then -1 else if !bits[i] then i else FirstClear(bits, i + 1)
  }

  /** How many of the bits are clear. */
  function CountClear(bits: seq<bool>): nat {
    if bits == [] then 0 else CountClear(bits[..|bits| - 1]) + if bits[|bits| - 1] then 0 else 1
  }

  lemma {:induction false} CountClearSet(bits: seq<bool>, i: int, b: bool)
    requires 0 <= i < |bits|
    ensures CountClear(bits[i := b]) + (if bits[i] then 0 else 1) == CountClear(bits) + if b then 0 else 1
  {
    var n := |bits| - 1;
    if i == n {
      assert bits[i := b][..n] == bits[..n];
    } else {
      assert bits[i := b][..n] == bits[..n][i := b];
      CountClearSet(bits[..n], i, b);
    }
  }

  lemma {:induction false} CountAllClear(bits: seq<bool>)
    requires forall i :: 0 <= i < |bits| ==> !bits[i]
    ensures CountClear(bits) == |bits|
  {
    if bits != [] { CountAllClear(bits[..|bits| - 1]); }
  }

  /** There is a clear bit to find exactly when the count is not zero. */
  lemma {:induction false} FindMeansCount(bits: seq<bool>)
    ensures FirstClear(bits, 0) == -1 <==> CountClear(bits) == 0
    ensures CountClear(bits) <= |bits|
  {
    if bits != [] {
      var n := |bits| - 1;
      FindMeansCount(bits[..n]);
      var i := FirstClear(bits[..n], 0);
      assert i != -1 ==> !bits[i];
      assert forall j :: 0 <= j < n ==> bits[..n][j] == bits[j];
    }
  }

  /** 1 << k, one place at a time. */
  function Mask(k: nat): bv32 {
    if k == 0 then 1 else Mask(k - 1) << 1
  }

  /** No place below 32 is shifted out. */
  lemma MaskNotZero(k: nat)
    requires k < 32
    ensures Mask(k) != 0
  {
    assert Mask(0) == 0x1;
    assert Mask(1) == 0x2;
    assert Mask(2) == 0x4;
    assert Mask(3) == 0x8;
    assert Mask(4) == 0x10;
    assert Mask(5) == 0x20;
    assert Mask(6) == 0x40;
    assert Mask(7) == 0x80;
    assert Mask(8) == 0x100;
    assert Mask(9) == 0x200;
    assert Mask(10) == 0x400;
    assert Mask(11) == 0x800;
    assert Mask(12) == 0x1000;
    assert Mask(13) == 0x2000;
    assert Mask(14) == 0x4000;
    assert Mask(15) == 0x8000;
    assert Mask(16) == 0x10000;
    assert Mask(17) == 0x20000;
    assert Mask(18) == 0x40000;
    assert Mask(19) == 0x80000;
    assert Mask(20) == 0x100000;
    assert Mask(21) == 0x200000;
    assert Mask(22) == 0x400000;
    assert Mask(23) == 0x800000;
    assert Mask(24) == 0x1000000;
    assert Mask(25) == 0x2000000;
    assert Mask(26) == 0x4000000;
    assert Mask(27) == 0x8000000;
    assert Mask(28) == 0x10000000;
    assert Mask(29) == 0x20000000;
    assert Mask(30) == 0x40000000;
    assert Mask(31) == 0x80000000;
  }

  predicate Meets(w: bv32, m: bv32) { w & m != 0 }

  function With(w: bv32, m: bv32): bv32 { w | m }

  function Without(w: bv32, m: bv32): bv32 { w & !m }

  lemma ShiftApart(x: bv32, y: bv32)
    ensures !Meets(x, y) ==> !Meets(x << 1, y << 1)
    ensures !Meets(1, y << 1)
  {
  }

  lemma MeetsBoth(x: bv32, y: bv32)
    ensures Meets(x, y) == Meets(y, x)
  {
  }

  lemma {:induction false} MasksApart(k: nat, j: nat)
    requires k != j
    ensures !Meets(Mask(k), Mask(j))
  {
    hide Meets;
    if k == 0 {
      ShiftApart(0, Mask(j - 1));
    } else if j == 0 {
      ShiftApart(0, Mask(k - 1));
      MeetsBoth(1, Mask(k));
    } else {
      MasksApart(k - 1, j - 1);
      ShiftApart(Mask(k - 1), Mask(j - 1));
    }
  }

  /** Bit k of a word. */
  predicate BitOf(w: bv32, k: nat) { Meets(w, Mask(k)) }

  lemma SetSame(w: bv32, m: bv32)
    ensures m != 0 ==> Meets(With(w, m), m)
    ensures !Meets(Without(w, m), m)
  {
  }

  lemma MeetsEither(w: bv32, m: bv32, n: bv32)
    ensures Meets(With(w, m), n) <==> Meets(w, n) || Meets(m, n)
  {
    assert (w | m) & n == (w & n) | (m & n);
  }

  lemma WithOther(w: bv32, m: bv32, n: bv32)
    requires !Meets(m, n)
    ensures Meets(With(w, m), n) == Meets(w, n)
  {
    hide Meets, With;
    MeetsEither(w, m, n);
  }

  lemma WithoutOther(w: bv32, m: bv32, n: bv32)
    requires !Meets(m, n)
    ensures Meets(Without(w, m), n) == Meets(w, n)
  {
  }

  lemma SetBit(w: bv32, k: nat, j: nat)
    requires k < 32 && j < 32
    ensures BitOf(With(w, Mask(k)), j) <==> j == k || BitOf(w, j)
    ensures BitOf(Without(w, Mask(k)), j) <==> j != k && BitOf(w, j)
  {
    hide Mask, Meets, With, Without;
    if j == k {
      MaskNotZero(k);
      SetSame(w, Mask(k));
    } else {
      MasksApart(k, j);
      WithOther(w, Mask(k), Mask(j));
      WithoutOther(w, Mask(k), Mask(j));
    }
  }

  /** The first n bits that the words stand for. */
  function Unpacked(words: seq<bv32>, n: nat): (s: seq<bool>)
    requires n <= 32 * |words|
    ensures |s| == n && forall i :: 0 <= i < n ==> s[i] == BitOf(words[i / 32], i % 32)
  {
    seq(n, i requires 0 <= i < n => BitOf(words[i / 32], i % 32))
  }

  lemma UnpackedUpdate(words: seq<bv32>, n: nat, which: nat, w: bv32, b: bool)
    requires n <= 32 * |words| && which < n
    requires w == if b then With(words[which / 32], Mask(which % 32)) else Without(words[which / 32], Mask(which % 32))
    ensures Unpacked(words[which / 32 := w], n) == Unpacked(words, n)[which := b]
  {
    hide BitOf, Mask, With, Without;
    var next := words[which / 32 := w];
    forall i | 0 <= i < n ensures BitOf(next[i / 32], i % 32) == (if i == which then b else BitOf(words[i / 32], i % 32)) {
      if i / 32 == which / 32 {
        SetBit(words[which / 32], which % 32, i % 32);
        assert i % 32 == which % 32 ==> i == which;
      }
    }
  }

  class BitMap {
    const numBits: nat
    const words: array<bv32>

    ghost predicate Valid()
    {
      words.Length == (numBits + 31) / 32
    }

    /** The bits the words stand for. */
    ghost function Contents(): (s: seq<bool>)
      requires Valid()
      reads words
      ensures |s| == numBits
    {
      Unpacked(words[..], numBits)
    }

    /** Only the first numBits bits are cleared; the rest of the last word is what memory held. */
    constructor (nitems: nat, memory: array<bv32>)
      requires memory.Length == (nitems + 31) / 32
      modifies memory
      ensures Valid() && numBits == nitems && words == memory
      ensures Contents() == seq(nitems, i => false)
    {
      numBits := nitems;
      words := memory;
      new;
      for i := 0 to numBits
        invariant Valid() && forall j :: 0 <= j < i ==> !Contents()[j]
      {
        Clear(i);
      }
    }

    method Mark(which: nat)
      requires Valid() && which < numBits
      modifies words
      ensures Contents() == old(Contents())[which := true]
    {
      hide Mask, BitOf, With, Without;
      var w := With(words[which / 32], Mask(which % 32));
      ghost var was := words[..];
      words[which / 32] := w;
      UnpackedUpdate(was, numBits, which, w, true);
      assert words[..] == was[which / 32 := w];
    }

    method Clear(which: nat)
      requires Valid() && which < numBits
      modifies words
      ensures Contents() == old(Contents())[which := false]
    {
      hide Mask, BitOf, With, Without;
      var w := Without(words[which / 32], Mask(which % 32));
      ghost var was := words[..];
      words[which / 32] := w;
      UnpackedUpdate(was, numBits, which, w, false);
      assert words[..] == was[which / 32 := w];
    }

    method Test(which: nat) returns (set': bool)
      requires Valid() && which < numBits
      ensures set' == Contents()[which]
    {
      hide Mask, Meets;
      set' := Meets(words[which / 32], Mask(which % 32));
    }

    /** The smallest clear bit, which is set, or -1. */
    method Find() returns (found: int)
      requires Valid()
      modifies words
      ensures found == FirstClear(old(Contents()), 0)
      ensures Contents() == if found == -1 then old(Contents()) else old(Contents())[found := true]
    {
      for i := 0 to numBits
        invariant words[..] == old(words[..]) && FirstClear(Contents(), 0) == FirstClear(Contents(), i)
      {
        var taken := Test(i);
        if !taken {
          Mark(i);
          return i;
        }
      }
      return -1;
    }

    method NumClear() returns (count: nat)
      requires Valid()
      ensures count == CountClear(Contents())
    {
      count := 0;
      for i := 0 to numBits
        invariant count == CountClear(Contents()[..i])
      {
        var taken := Test(i);
        assert Contents()[..i + 1][..i] == Contents()[..i];
        if !taken { count := count + 1; }
      }
      assert Contents()[..numBits] == Contents();
    }
  }
}
