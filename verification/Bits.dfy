// Bit operations on words, defined bit by bit, and the power-of-two masks built from them.
module Bits {
  import opened Words

  function Pow2(k: nat): (p: nat)
    ensures p > 0
  {
    if k == 0 then 1 else 2 * Pow2(k - 1)
  }

  function And(x: nat, y: nat): (r: nat)
    ensures r <= x
  {
    if x == 0 || y == 0 then 0 else (x % 2) * (y % 2) + 2 * And(x / 2, y / 2)
  }

  // ~x on 64 bits.
  function Not(x: Word): Word {
    WORD_MAX - x
  }

  // std::has_single_bit.
  predicate HasSingleBit(x: nat) {
    x != 0 && And(x, x - 1) == 0
  }

  // std::countr_zero of a nonzero word.
  function CountrZero(x: nat): nat
    requires x > 0
  {
    if x % 2 == 1 then 0 else 1 + CountrZero(x / 2)
  }

  lemma {:induction false} AndSelf(x: nat)
    ensures And(x, x) == x
    decreases x
  {
    if x != 0 {
      AndSelf(x / 2);
    }
  }

  // The test for a single bit recognizes exactly the powers of two, and the shift stored for
  // one gives it back.
  lemma {:induction false} SingleBitIsPower(x: nat)
    requires x > 0
    ensures HasSingleBit(x) <==> x == Pow2(CountrZero(x))
    decreases x
  {
    if x % 2 == 1 {
      if x > 1 {
        AndSelf(x / 2);
        assert (x - 1) / 2 == x / 2;
      }
    } else {
      SingleBitIsPower(x / 2);
      assert (x - 1) / 2 == x / 2 - 1;
      assert And(x, x - 1) == 2 * And(x / 2, x / 2 - 1);
    }
  }

  lemma {:induction false} PowerIsSingleBit(k: nat)
    ensures HasSingleBit(Pow2(k)) && CountrZero(Pow2(k)) == k
  {
    if k > 0 {
      PowerIsSingleBit(k - 1);
      assert Pow2(k) / 2 == Pow2(k - 1);
    }
    SingleBitIsPower(Pow2(k));
  }

  lemma {:induction false} PowersGrow(k: nat, n: nat)
    requires k <= n
    ensures Pow2(k) <= Pow2(n)
    decreases n
  {
    if k < n {
      PowersGrow(k, n - 1);
    }
  }

  lemma ModHalves(v: nat, p: nat)
    requires p > 0
    ensures v % (2 * p) == 2 * (v / 2 % p) + v % 2
  {
    var h := v / 2;
    var q, r := h / p, h % p;
    assert h == q * p + r;
    assert v == 2 * h + v % 2;
    assert v == q * (2 * p) + (2 * r + v % 2);
    ModUnique(v, 2 * p, q, 2 * r + v % 2);
  }

  lemma {:induction false} MulMonotone(a: nat, b: nat, m: nat)
    requires a < b
    ensures a * m + m <= b * m
    decreases b
  {
    assert b * m == (b - 1) * m + m;
    if a < b - 1 {
      MulMonotone(a, b - 1, m);
    }
  }

  lemma DivisionUnique(m: nat, q: nat, r: nat, q': nat, r': nat)
    requires q * m + r == q' * m + r' && r < m && r' < m
    ensures q == q' && r == r'
  {
    if q < q' {
      MulMonotone(q, q', m);
    } else if q' < q {
      MulMonotone(q', q, m);
    }
  }

  lemma ModUnique(v: nat, m: nat, q: nat, r: nat)
    requires m > 0 && v == q * m + r && r < m
    ensures v % m == r && v / m == q
  {
    DivisionUnique(m, q, r, v / m, v % m);
  }

  // Two different multiples of m are at least m apart.
  lemma MultiplesApart(a: nat, b: nat, m: nat)
    requires m > 0 && a % m == 0 && b % m == 0 && a < b
    ensures a + m <= b
  {
    var i, j := a / m, b / m;
    assert a == i * m && b == j * m;
    if j < i {
      MulMonotone(j, i, m);
    } else if i < j {
      MulMonotone(i, j, m);
    }
  }

  // Clearing the low k of n bits subtracts the remainder modulo 2^k.
  lemma {:induction false} ClearLowBits(v: nat, n: nat, k: nat)
    requires k <= n && v < Pow2(n)
    ensures Pow2(k) <= Pow2(n) && And(v, Pow2(n) - Pow2(k)) == v - v % Pow2(k)
    decreases n
  {
    PowersGrow(k, n);
    if k > 0 {
      ClearLowBits(v / 2, n - 1, k - 1);
      ModHalves(v, Pow2(k - 1));
      AndHalves(v, Pow2(n) - Pow2(k), 0, Pow2(n - 1) - Pow2(k - 1));
    } else if n > 0 {
      ClearLowBits(v / 2, n - 1, 0);
      AndHalves(v, Pow2(n) - 1, 1, Pow2(n - 1) - 1);
    }
  }

  lemma AndHalves(v: nat, mask: nat, bit: nat, half: nat)
    requires bit < 2 && mask == 2 * half + bit
    ensures And(v, mask) == (v % 2) * bit + 2 * And(v / 2, half)
  {
    assert mask % 2 == bit && mask / 2 == half;
  }

  lemma Pow64()
    ensures Pow2(64) == WORD_LIMIT
  {
    assert Pow2(8) == 256;
    assert Pow2(16) == 65536;
    assert Pow2(32) == 0x1_0000_0000 by {
      assert Pow2(24) == 0x100_0000;
    }
    assert Pow2(40) == 0x100_0000_0000;
    assert Pow2(48) == 0x1_0000_0000_0000;
    assert Pow2(56) == 0x100_0000_0000_0000;
  }
}
