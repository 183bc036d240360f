/** Machine words of the C++ program: DWORD, uint64_t and bytes, with their wrap-around. */
module Words {
  const TWO_32: nat := 0x1_0000_0000
  const TWO_64: nat := 0x1_0000_0000_0000_0000
  const UINT64_MAX: u64 := 0xFFFF_FFFF_FFFF_FFFF

  type byte = x: int | 0 <= x < 256
  type u32 = x: int | 0 <= x < 0x1_0000_0000
  type u64 = x: int | 0 <= x < 0x1_0000_0000_0000_0000

  datatype Option<+T> = None | Some(value: T)

  /** Unsigned 64-bit addition. */
  function Add64(a: u64, b: u64): u64 {
    if a + b < TWO_64 then a + b else a + b - TWO_64
  }

  /** Unsigned 64-bit subtraction. */
  function Sub64(a: u64, b: u64): u64 {
    if b <= a then a - b else a - b + TWO_64
  }

  /** A size_t cast to DWORD. */
  function Dword(n: nat): (d: nat)
    ensures d <= n
    ensures n < TWO_32 ==> d == n
    ensures d < TWO_32
  {
    n % TWO_32
  }

  /** What a 64-bit counter shows after an exact count of n. */
  function Wrap(n: nat): u64 {
    n % TWO_64
  }

  lemma AddWraps(n: nat, k: u64)
    ensures Add64(Wrap(n), k) == Wrap(n + k)
  {
    assert n == TWO_64 * (n / TWO_64) + n % TWO_64;
    var q := n / TWO_64;
    if n % TWO_64 + k < TWO_64 {
      assert n + k == TWO_64 * q + (n % TWO_64 + k);
    } else {
      assert n + k == TWO_64 * (q + 1) + (n % TWO_64 + k - TWO_64);
    }
  }

  function Sum(sizes: seq<u64>): nat {
    if sizes == [] then 0 else Sum(sizes[..|sizes| - 1]) + sizes[|sizes| - 1]
  }

  // ----- division and products

  lemma DivBounds(a: nat, b: nat)
    requires b > 0
    ensures a / b * b <= a < (a / b + 1) * b
  {
    assert a == b * (a / b) + a % b;
  }

  lemma MulGrows(p: int, q: int, b: nat)
    requires p <= q
    ensures p * b <= q * b
  {
  }

  /** A quotient is pinned down by its bounds. */
  lemma QuotientIs(a: nat, b: nat, q: int)
    requires b > 0 && q * b <= a < (q + 1) * b
    ensures a / b == q
  {
    DivBounds(a, b);
    if a / b < q {
      MulGrows(a / b + 1, q, b);
    } else if a / b > q {
      MulGrows(q + 1, a / b, b);
    }
  }

  lemma DivShrinks(a: nat, b: nat)
    requires b > 0
    ensures 0 <= a / b <= a
  {
    DivBounds(a, b);
    if a / b < 0 {
      MulGrows(a / b + 1, 0, b);
    } else {
      Distribute(b, 1, a / b);
      MulGrows(0, b - 1, a / b);
    }
  }

  lemma DivGrows(a: nat, c: nat, b: nat)
    requires b > 0 && a <= c
    ensures a / b <= c / b
  {
    DivBounds(a, b);
    DivBounds(c, b);
    if c / b < a / b {
      MulGrows(c / b + 1, a / b, b);
    }
  }

  lemma DivShift(a: nat, b: nat)
    requires b > 0
    ensures (a + b) / b == a / b + 1
  {
    DivBounds(a, b);
    Distribute(a / b + 1, 0, b);
    QuotientIs(a + b, b, a / b + 1);
  }

  lemma Distribute(p: int, q: int, f: int)
    ensures (p - q) * f == p * f - q * f
    ensures (p + 1) * f == p * f + f && (q + 1) * f == q * f + f
  {
  }
}
