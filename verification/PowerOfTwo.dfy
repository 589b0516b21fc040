/** The size classes of the stack pool: rounding up to a power of two by bit smearing, and the bit test
    that recognises one (src/stack_allocator.cpp:24-50, 280).  Words are naturals below 2^64; the bitwise
    operators are defined bit by bit. */
module PowersOfTwo {
  import opened Prelude

  const WORD64: nat := 0x1_0000_0000_0000_0000
  const HALF64: nat := 0x8000_0000_0000_0000

  function Pow2(k: nat): (r: nat)
    ensures r >= 1
  {
    if k == 0 then 1 else 2 * Pow2(k - 1)
  }

  ghost predicate IsPow2(n: nat) {
    exists k: nat :: n == Pow2(k)
  }

  function Or(x: nat, y: nat): nat
    decreases x + y
  {
    if x == 0 then y else if y == 0 then x
    else 2 * Or(x / 2, y / 2) + if x % 2 == 1 || y % 2 == 1 then 1 else 0
  }

  function And(x: nat, y: nat): nat
    decreases x
  {
    if x == 0 || y == 0 then 0 else 2 * And(x / 2, y / 2) + if x % 2 == 1 && y % 2 == 1 then 1 else 0
  }

  function Shr(x: nat, s: nat): nat
    decreases s
  {
    if s == 0 then x else Shr(x / 2, s - 1)
  }

  predicate Bit(x: nat, i: nat)
    decreases i
  {
    if i == 0 then x % 2 == 1 else Bit(x / 2, i - 1)
  }

  /** The number of bits of x. */
  function Width(x: nat): nat {
    if x == 0 then 0 else 1 + Width(x / 2)
  }

  lemma {:induction false} WidthBounds(x: nat)
    requires x > 0
    ensures Width(x) > 0 && Pow2(Width(x) - 1) <= x < Pow2(Width(x)) && Bit(x, Width(x) - 1)
    decreases x
  {
    if x > 1 { WidthBounds(x / 2); }
  }

  lemma {:induction false} Pow2Monotone(a: nat, b: nat)
    requires a <= b
    ensures Pow2(a) <= Pow2(b)
    decreases b
  {
    if a < b { Pow2Monotone(a, b - 1); }
  }

  lemma {:induction false} OrBit(x: nat, y: nat, i: nat)
    ensures Bit(Or(x, y), i) <==> Bit(x, i) || Bit(y, i)
    decreases i
  {
    if x == 0 {
      ZeroBit(i);
    } else if y == 0 {
      ZeroBit(i);
    } else if i > 0 {
      OrBit(x / 2, y / 2, i - 1);
    }
  }

  lemma {:induction false} ZeroBit(i: nat)
    ensures !Bit(0, i)
    decreases i
  {
    if i > 0 { ZeroBit(i - 1); }
  }

  lemma {:induction false} ShrBit(x: nat, s: nat, i: nat)
    ensures Bit(Shr(x, s), i) <==> Bit(x, i + s)
    decreases s
  {
    if s > 0 { ShrBit(x / 2, s - 1, i); }
  }

  lemma {:induction false} ShrSmaller(x: nat, s: nat)
    ensures Shr(x, s) <= x
    decreases s
  {
    if s > 0 { ShrSmaller(x / 2, s - 1); }
  }

  lemma {:induction false} OrBelow(x: nat, y: nat, k: nat)
    requires x < Pow2(k) && y < Pow2(k)
    ensures Or(x, y) < Pow2(k)
    decreases k
  {
    if x > 0 && y > 0 { OrBelow(x / 2, y / 2, k - 1); }
  }

  lemma {:induction false} AllOnes(x: nat, k: nat)
    requires x < Pow2(k) && forall i :: 0 <= i < k ==> Bit(x, i)
    ensures x == Pow2(k) - 1
    decreases k
  {
    if k > 0 {
      forall i | 0 <= i < k - 1 ensures Bit(x / 2, i) {
        assert Bit(x, i + 1);
      }
      AllOnes(x / 2, k - 1);
      assert Bit(x, 0);
    }
  }

  /** The top `ones` bits of the k-bit value x are set. */
  ghost predicate Smeared(x: nat, k: nat, ones: nat) {
    x < Pow2(k) && forall i :: 0 <= i < k && k - ones <= i ==> Bit(x, i)
  }

  /** One round of smearing doubles the run of ones at the top. */
  lemma {:induction false} SmearDoubles(x: nat, k: nat, shift: nat)
    requires Smeared(x, k, shift)
    ensures Smeared(Or(x, Shr(x, shift)), k, 2 * shift)
  {
    ShrSmaller(x, shift);
    OrBelow(x, Shr(x, shift), k);
    forall i | 0 <= i < k && k - 2 * shift <= i ensures Bit(Or(x, Shr(x, shift)), i) {
      OrBit(x, Shr(x, shift), i);
      ShrBit(x, shift, i);
      if i < k - shift { assert Bit(x, i + shift); }
    }
  }

  lemma {:induction false} Pow2At16()
    ensures Pow2(16) == 0x1_0000
  {
    assert Pow2(8) == 0x100;
    Pow2Product(8, 8);
  }

  lemma {:induction false} Pow2At31()
    ensures Pow2(31) == 0x8000_0000
  {
    Pow2At16();
    assert Pow2(15) == 0x8000;
    Pow2Product(16, 15);
  }

  lemma {:induction false} HalfIsPow2()
    ensures HALF64 == Pow2(63)
  {
    Pow2At31();
    assert Pow2(32) == 0x1_0000_0000;
    Pow2Product(32, 31);
  }

  lemma {:induction false} Pow2Product(a: nat, b: nat)
    ensures Pow2(a + b) == Pow2(a) * Pow2(b)
    decreases b
  {
    if b > 0 { Pow2Product(a, b - 1); }
  }

  /** r is the smallest power of two that is at least v. */
  ghost predicate Ceiling(v: nat, r: nat) {
    IsPow2(r) && v <= r && forall k: nat :: v <= Pow2(k) ==> r <= Pow2(k)
  }

  lemma {:induction false} CeilingFrom(v: nat, k: nat)
    requires v <= Pow2(k) && (k > 0 ==> Pow2(k - 1) < v)
    ensures Ceiling(v, Pow2(k))
  {
    forall j: nat | v <= Pow2(j) ensures Pow2(k) <= Pow2(j) {
      if j < k { Pow2Monotone(j, k - 1); } else { Pow2Monotone(k, j); }
    }
  }

  function Round(v: nat): nat {
    if v <= 1 then 1 else Pow2(Width(v - 1))
  }

  lemma {:induction false} RoundIsCeiling(v: nat)
    ensures Ceiling(v, Round(v))
  {
    if v <= 1 {
      CeilingFrom(v, 0);
    } else {
      WidthBounds(v - 1);
      CeilingFrom(v, Width(v - 1));
    }
  }

  /** NextPowerOfTwo; None is bad_alloc.  It fails exactly above 2^63: the check after the loop never
      finds an overflow. */
  method NextPowerOfTwo(input: nat) returns (r: Option<nat>, late: bool)
    requires input < WORD64
    ensures r.Some? <==> input <= HALF64
    ensures r.Some? ==> r.value == Round(input) && Ceiling(input, r.value) && r.value <= HALF64
    ensures !late
  {
    late := false;
    HalfIsPow2();
    if input <= 1 {
      CeilingFrom(input, 0);
      return Some(1), false;
    }
    if input > HALF64 {
      return None, false;
    }
    var value: nat := input - 1;
    ghost var k := Width(value);
    WidthBounds(value);
    assert k <= 63 by {
      if k > 63 { Pow2Monotone(63, k - 1); }
    }
    var shift := 1;
    while shift < 64
      invariant shift == 1 || shift == 2 || shift == 4 || shift == 8 || shift == 16 || shift == 32 || shift == 64
      invariant Smeared(value, k, shift)
      decreases 64 - shift
    {
      SmearDoubles(value, k, shift);
      value := Or(value, Shr(value, shift));
      shift := shift * 2;
    }
    AllOnes(value, k);
    Pow2Monotone(k, 63);
    late := value == WORD64 - 1;
    if late {
      r := None;
    } else {
      CeilingFrom(input, k);
      r := Some(value + 1);
    }
  }

  lemma {:induction false} AndSelf(x: nat)
    ensures And(x, x) == x
    decreases x
  {
    if x > 0 { AndSelf(x / 2); }
  }

  /** The test `n & (n - 1) == 0` recognises exactly the powers of two. */
  lemma {:induction false} BitTest(n: nat)
    requires n > 0
    ensures And(n, n - 1) == 0 <==> IsPow2(n)
    decreases n
  {
    if n == 1 {
      assert Pow2(0) == 1;
    } else if n % 2 == 1 {
      AndSelf(n / 2);
      assert (n - 1) / 2 == n / 2;
      OddIsNotPow2(n);
    } else {
      BitTest(n / 2);
      assert (n - 1) / 2 == n / 2 - 1;
      DoublePow2(n / 2);
    }
  }

  lemma {:induction false} OddIsNotPow2(n: nat)
    requires n > 1 && n % 2 == 1
    ensures !IsPow2(n)
  {
    forall k: nat ensures n != Pow2(k) {
      if k > 0 { assert Pow2(k) == 2 * Pow2(k - 1); }
    }
  }

  lemma {:induction false} DoublePow2(m: nat)
    requires m > 0
    ensures IsPow2(m) <==> IsPow2(2 * m)
  {
    if IsPow2(m) {
      var k: nat :| m == Pow2(k);
      assert 2 * m == Pow2(k + 1);
    }
    if IsPow2(2 * m) {
      var k: nat :| 2 * m == Pow2(k);
      assert k > 0;
      assert m == Pow2(k - 1);
    }
  }
}
