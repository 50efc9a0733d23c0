/** The R2000's 32 by 32 bit multiplication: shift, add, and carry by hand between two words. */
module Multiply {
  import opened Bytes

  const WORD := 0x1_0000_0000
  const DOUBLE := 0x1_0000_0000_0000_0000
  const SIGN := 0x8000_0000

  /** A 32-bit int, and the same bits as an unsigned int. */
  predicate IsInt(n: int) { -SIGN <= n < SIGN }

  function Unsigned(n: int): (u: nat)
    ensures u < WORD
  {
    n % WORD
  }

  predicate IsUnsigned(n: int) { 0 <= n < WORD }

  /** -n in 32 bits: the most negative number is its own negation. */
  function Negated(n: int): int { if n == -SIGN then n else -n }

  function Value(hi: int, lo: int): int { hi * WORD + lo }

  /** x is y up to a multiple of 2^64. */
  ghost predicate Same(x: int, y: int) { exists k :: x + DOUBLE * k == y }

  lemma SameBy(x: int, y: int, k: int)
    requires x + DOUBLE * k == y
    ensures Same(x, y)
  {
  }

  lemma SameAdd(x: int, y: int, u: int, v: int)
    requires Same(x, y) && Same(u, v)
    ensures Same(x + u, y + v)
  {
    var k :| x + DOUBLE * k == y;
    var l :| u + DOUBLE * l == v;
    SameBy(x + u, y + v, k + l);
  }

  lemma SameTrans(x: int, y: int, z: int)
    requires Same(x, y) && Same(y, z)
    ensures Same(x, z)
  {
    var k :| x + DOUBLE * k == y;
    var l :| y + DOUBLE * l == z;
    SameBy(x, z, k + l);
  }

  lemma SameMod(x: int, y: int)
    requires Same(x, y) && 0 <= x < DOUBLE
    ensures x == y % DOUBLE
  {
    var k :| x + DOUBLE * k == y;
  }

  function Times(x: int, y: int): int { x * y }

  lemma Distribute(a: int, b: int, c: int)
    ensures Times(a + b, c) == Times(a, c) + Times(b, c) && Times(2 * a, c) == Times(a, c) + Times(a, c)
    ensures Times(0, c) == 0 && Times(1, c) == c
  {
  }

  /** lo += bLo with a carry into hi, then hi += bHi. */
  method AddInto(hi: int, lo: int, bHi: int, bLo: int) returns (h: int, l: int)
    requires IsUnsigned(hi) && IsUnsigned(lo) && IsUnsigned(bHi) && IsUnsigned(bLo)
    ensures IsUnsigned(h) && IsUnsigned(l) && Same(Value(h, l), Value(hi, lo) + Value(bHi, bLo))
  {
    h, l := hi, lo;
    l := (l + bLo) % WORD;
    if l < bLo { h := (h + 1) % WORD; }
    h := (h + bHi) % WORD;
    AddIs(hi, lo, bHi, bLo, l, h);
  }

  lemma AddIs(hi: int, lo: int, bHi: int, bLo: int, l: int, h: int)
    requires IsUnsigned(hi) && IsUnsigned(lo) && IsUnsigned(bHi) && IsUnsigned(bLo)
    requires l == (lo + bLo) % WORD && h == ((if l < bLo then (hi + 1) % WORD else hi) + bHi) % WORD
    ensures Same(Value(h, l), Value(hi, lo) + Value(bHi, bLo))
  {
    var carry := if lo + bLo >= WORD then 1 else 0;
    assert l == lo + bLo - carry * WORD && (l < bLo <==> carry == 1);
    var sum := hi + carry + bHi;
    var k := if sum >= 2 * WORD then 2 else if sum >= WORD then 1 else 0;
    assert h == sum - k * WORD;
    SameBy(Value(h, l), Value(hi, lo) + Value(bHi, bLo), k);
  }

  /** The double word b shifted left by one. */
  method ShiftLeft(bHi: int, bLo: int) returns (h: int, l: int)
    requires IsUnsigned(bHi) && IsUnsigned(bLo)
    ensures IsUnsigned(h) && IsUnsigned(l) && Same(Value(h, l), 2 * Value(bHi, bLo))
  {
    h, l := bHi, bLo;
    h := (2 * h) % WORD;
    if l >= SIGN { h := h + 1; }
    l := (2 * l) % WORD;
    var top := if bHi >= SIGN then 1 else 0;
    SameBy(Value(h, l), 2 * Value(bHi, bLo), top);
  }

  /** The two's complement of a double word. */
  method Negate(hi: int, lo: int) returns (h: int, l: int)
    requires IsUnsigned(hi) && IsUnsigned(lo)
    ensures IsUnsigned(h) && IsUnsigned(l) && Same(Value(h, l), -Value(hi, lo))
  {
    h := WORD - 1 - hi;
    l := WORD - 1 - lo;
    l := (l + 1) % WORD;
    if l == 0 { h := (h + 1) % WORD; }
    SameBy(Value(h, l), -Value(hi, lo), if hi == 0 && lo == 0 then 0 else -1);
  }

  /** What the loop has still to do: `a` shifted right arithmetically by 32 - n places, of which the
      low n bits are those of `rest`. */
  ghost predicate Remaining(a: int, rest: nat, n: nat) {
    rest < Pow2(n) && (a == rest || a == rest - Pow2(n))
  }

  lemma ShiftRight(a: int, rest: nat, n: nat)
    requires Remaining(a, rest, n) && n > 0
    ensures Remaining(a / 2, rest / 2, n - 1) && a % 2 == rest % 2
    ensures a == 0 || a == 1 ==> rest == a
  {
  }

  lemma Pow32()
    ensures Pow2(32) == WORD
  {
    assert Pow2(8) == 256;
    assert Pow2(16) == 65536;
    assert Pow2(24) == 16777216;
  }

  lemma StartRemaining(a: int)
    requires IsInt(a)
    ensures Remaining(a, Unsigned(a), 32)
  {
    Pow32();
  }

  /** The unsigned product of the bits of a and b. */
  method MultiplyBits(a0: int, b: int) returns (hi: int, lo: int)
    requires IsInt(a0) && IsInt(b)
    ensures IsUnsigned(hi) && IsUnsigned(lo) && Same(Value(hi, lo), Times(Unsigned(a0), Unsigned(b)))
  {
    hide Times, Remaining, Pow2, Same, Unsigned, Value;
    var a := a0;
    var bLo, bHi := Unsigned(b), 0;
    lo, hi := 0, 0;
    ghost var u := Unsigned(b);
    // Unsigned(a0) == done + place * rest, with place == 2^i
    ghost var done, place := 0, 1;
    ghost var rest: nat := Unsigned(a0);
    StartRemaining(a0);
    Start(u, rest);
    var i := 0;
    while i < 32
      invariant 0 <= i <= 32 && IsUnsigned(hi) && IsUnsigned(lo) && IsUnsigned(bHi) && IsUnsigned(bLo)
      invariant Remaining(a, rest, 32 - i) && Unsigned(a0) == done + Times(place, rest)
      invariant Same(Value(hi, lo), Times(done, u)) && Same(Value(bHi, bLo), Times(place, u))
    {
      ShiftRight(a, rest, 32 - i);
      HalveRest(place, rest);
      if a % 2 == 1 {
        var h, l := AddInto(hi, lo, bHi, bLo);
        SameAdd(Value(hi, lo), Times(done, u), Value(bHi, bLo), Times(place, u));
        Distribute(done, place, u);
        SameTrans(Value(h, l), Value(hi, lo) + Value(bHi, bLo), Times(done + place, u));
        hi, lo := h, l;
        done := done + place;
        if a == 0 || a == 1 {
          return;
        }
      }
      var h, l := ShiftLeft(bHi, bLo);
      SameAdd(Value(bHi, bLo), Times(place, u), Value(bHi, bLo), Times(place, u));
      Distribute(place, 0, u);
      SameTrans(Value(h, l), 2 * Value(bHi, bLo), Times(2 * place, u));
      bHi, bLo := h, l;
      a := a / 2;
      place, rest := 2 * place, rest / 2;
      i := i + 1;
    }
    NoneRemaining(a, rest, place);
  }

  lemma Start(u: int, rest: int)
    requires IsUnsigned(u)
    ensures IsUnsigned(0) && Same(Value(0, 0), Times(0, u)) && Same(Value(0, u), Times(1, u)) && rest == 0 + Times(1, rest)
  {
    SameBy(Value(0, 0), Times(0, u), 0);
    SameBy(Value(0, u), Times(1, u), 0);
  }

  lemma NoneRemaining(a: int, rest: nat, place: int)
    requires Remaining(a, rest, 0)
    ensures Times(place, rest) == 0
  {
    assert Pow2(0) == 1;
  }

  lemma HalveRest(place: int, rest: nat)
    ensures Times(place, rest) == (if rest % 2 == 1 then place else 0) + Times(2 * place, rest / 2)
    ensures rest == 1 ==> Times(2 * place, rest / 2) == 0
  {
    var h, r := rest / 2, rest % 2;
    assert rest == 2 * h + r;
    assert place * (2 * h + r) == place * (2 * h) + place * r;
    assert place * (2 * h) == (2 * place) * h;
  }

  /** Mult. The two words are the exact product modulo 2^64, of the signed values or of the unsigned
      ones, for all operands, the most negative number included. */
  method Mult(a0: int, b0: int, signedArith: bool) returns (hi: int, lo: int)
    requires IsInt(a0) && IsInt(b0)
    ensures IsUnsigned(hi) && IsUnsigned(lo)
    ensures Value(hi, lo) == Product(a0, b0, signedArith) % DOUBLE
  {
    hide Times, Same, Value, Unsigned;
    var a, b := a0, b0;
    if a == 0 || b == 0 {
      ZeroProduct(a, b, signedArith);
      return 0, 0;
    }
    var negative := false;
    if signedArith {
      if a < 0 {
        negative := !negative;
        a := Negated(a);
      }
      if b < 0 {
        negative := !negative;
        b := Negated(b);
      }
    }
    hi, lo := MultiplyBits(a, b);
    ghost var product := Times(Unsigned(a), Unsigned(b));
    if negative {
      var h, l := Negate(hi, lo);
      SameNegate(Value(hi, lo), product);
      SameTrans(Value(h, l), -Value(hi, lo), -product);
      hi, lo := h, l;
      product := -product;
    }
    Signs(a0, b0, a, b, signedArith, negative);
    ValueRange(hi, lo);
    SameMod(Value(hi, lo), product);
  }

  lemma SameNegate(x: int, y: int)
    requires Same(x, y)
    ensures Same(-x, -y)
  {
    var k :| x + DOUBLE * k == y;
    SameBy(-x, -y, -k);
  }

  /** What is multiplied: the signed values, or the same bits as unsigned numbers. */
  function Product(a: int, b: int, signedArith: bool): int {
    if signedArith then a * b else Unsigned(a) * Unsigned(b)
  }

  lemma ZeroProduct(a: int, b: int, signedArith: bool)
    requires a == 0 || b == 0
    ensures Product(a, b, signedArith) == 0 && Value(0, 0) == 0
  {
  }

  lemma ValueRange(hi: int, lo: int)
    requires IsUnsigned(hi) && IsUnsigned(lo)
    ensures 0 <= Value(hi, lo) < DOUBLE
  {
  }

  lemma Magnitude(n: int)
    requires IsInt(n)
    ensures n < 0 ==> IsInt(Negated(n)) && Unsigned(Negated(n)) == -n
    ensures n >= 0 ==> Unsigned(n) == n
  {
  }

  /** The sign of a product of magnitudes. */
  lemma Signs(a0: int, b0: int, a: int, b: int, signedArith: bool, negative: bool)
    requires IsInt(a0) && IsInt(b0)
    requires a == (if signedArith && a0 < 0 then Negated(a0) else a0) && b == (if signedArith && b0 < 0 then Negated(b0) else b0)
    requires negative == (signedArith && (a0 < 0) != (b0 < 0))
    ensures Product(a0, b0, signedArith) == if negative then -Times(Unsigned(a), Unsigned(b)) else Times(Unsigned(a), Unsigned(b))
  {
    hide Negated, Unsigned;
    Magnitude(a0);
    Magnitude(b0);
    assert (-a0) * b0 == -(a0 * b0) && a0 * (-b0) == -(a0 * b0) && (-a0) * (-b0) == a0 * b0;
  }
}
