/** Go's int64 bit operators, and the laws that let disjoint bit fields be read as arithmetic. */
module BitFields {

  const TWO63: int := 0x8000_0000_0000_0000
  const TWO64: int := 0x1_0000_0000_0000_0000

  function Pow2(k: nat): (r: nat)
    ensures r >= 1
  {
    if k == 0 then 1 else 2 * Pow2(k - 1)
  }

  /** Bitwise or of two non-negative numbers, one binary digit at a time. */
  function Or(a: nat, b: nat): nat
    decreases a + b
  {
    if a == 0 && b == 0 then 0
    else (if a % 2 == 1 || b % 2 == 1 then 1 else 0) + 2 * Or(a / 2, b / 2)
  }

  /** Bitwise and of two non-negative numbers, one binary digit at a time. */
  function And(a: nat, b: nat): nat {
    if a == 0 then 0
    else (if a % 2 == 1 && b % 2 == 1 then 1 else 0) + 2 * And(a / 2, b / 2)
  }

  /** The unsigned reading of a two's complement word. */
  function ToUint64(x: int): (u: nat)
    ensures u < TWO64
  {
    x % 0x1_0000_0000_0000_0000
  }

  /** The signed reading of a word. */
  function ToInt64(u: int): (x: int)
    ensures -TWO63 <= x < TWO63
  {
    var w := u % 0x1_0000_0000_0000_0000;
    if w >= 0x8000_0000_0000_0000 then w - 0x1_0000_0000_0000_0000 else w
  }

  /** `x << k` on int64: bits pushed past the top are lost. */
  function Shl64(x: int, k: nat): int {
    ToInt64(x * Pow2(k))
  }

  /** `x >> k` on int64: the sign is kept, so this is the floor of the quotient. */
  function Shr64(x: int, k: nat): int {
    x / Pow2(k)
  }

  function Or64(x: int, y: int): int {
    ToInt64(Or(ToUint64(x), ToUint64(y)))
  }

  function And64(x: int, y: int): int {
    ToInt64(And(ToUint64(x), ToUint64(y)))
  }

  /** `int64(-1) ^ (int64(-1) << k)`; flipping every bit of y is -1 - y. */
  function LowMask(k: nat): int {
    -1 - Shl64(-1, k)
  }

  // ---------------------------------------------------------------- powers of two

  lemma {:induction false} Pow2Add(a: nat, b: nat)
    ensures Pow2(a + b) == Pow2(a) * Pow2(b)
  {
    if a > 0 {
      Pow2Add(a - 1, b);
      assert Pow2(a + b) == 2 * Pow2(a - 1 + b);
    }
  }

  lemma {:induction false} Pow2Mono(a: nat, b: nat)
    requires a <= b
    ensures Pow2(a) <= Pow2(b)
  {
    if a < b { Pow2Mono(a, b - 1); }
  }

  lemma Pow2Values()
    ensures Pow2(10) == 1024 && Pow2(12) == 4096 && Pow2(19) == 0x8_0000 && Pow2(22) == 0x40_0000
    ensures Pow2(3) == 8 && Pow2(9) == 512
    ensures Pow2(41) == 0x200_0000_0000 && Pow2(63) == TWO63 && Pow2(64) == TWO64
  {
    assert Pow2(10) == 1024;
    assert Pow2(12) == 4096;
    Pow2Add(10, 12);
    Pow2Add(10, 9);
    Pow2Add(22, 19);
    Pow2Add(41, 22);
    Pow2Add(63, 1);
  }

  lemma Pow2Of10()
    ensures Pow2(10) == 1024
  {
  }

  lemma Pow2Of12()
    ensures Pow2(12) == 4096
  {
  }

  // ---------------------------------------------------------------- or and and

  lemma {:induction false} OrZero(a: nat)
    ensures Or(a, 0) == a
  {
    if a != 0 { OrZero(a / 2); }
  }

  lemma HalfOfShifted(q: nat, k: nat)
    requires k > 0
    ensures (q * Pow2(k)) / 2 == q * Pow2(k - 1) && (q * Pow2(k)) % 2 == 0
  {
    assert q * Pow2(k) == 2 * (q * Pow2(k - 1));
  }

  /** Or-ing a value into the zero bits below a shifted field is addition. */
  lemma {:induction false} OrDisjoint(q: nat, k: nat, b: nat)
    requires b < Pow2(k)
    ensures Or(q * Pow2(k), b) == q * Pow2(k) + b
    decreases k
  {
    if k == 0 {
      OrZero(q);
    } else {
      HalfOfShifted(q, k);
      OrDisjoint(q, k - 1, b / 2);
    }
  }

  lemma {:induction false} AndZero(a: nat)
    ensures And(a, 0) == 0
  {
    if a != 0 { AndZero(a / 2); }
  }

  lemma ModDouble(a: nat, p: nat)
    requires p > 0
    ensures a % (2 * p) == a % 2 + 2 * ((a / 2) % p)
  {
    var h := a / 2;
    var q, r := h / p, h % p;
    assert h == q * p + r;
    assert a == 2 * h + a % 2 == q * (2 * p) + (2 * r + a % 2);
    ModUnique(a, 2 * p, q, 2 * r + a % 2);
  }

  /** A multiple of m that lies strictly between -m and m is zero. */
  lemma MulGap(m: int, d: int)
    requires m > 0
    ensures d >= 1 ==> m * d >= m
    ensures d <= -1 ==> m * d <= -m
  {
    if d >= 1 {
      assert m * d == m + m * (d - 1) && m * (d - 1) >= 0;
    } else if d <= -1 {
      assert m * d == -m + m * (d + 1) && m * (d + 1) <= 0;
    }
  }

  lemma ModUnique(a: int, m: int, q: int, r: int)
    requires m > 0 && 0 <= r < m && a == q * m + r
    ensures a % m == r && a / m == q
  {
    var q', r' := a / m, a % m;
    var d := q' - q;
    assert a == q' * m + r';
    assert m * d == q' * m - q * m;
    MulGap(m, d);
  }

  /** Masking with k one bits is the remainder by 2^k. */
  lemma {:induction false} AndMask(a: nat, k: nat)
    ensures And(a, Pow2(k) - 1) == a % Pow2(k)
    decreases k
  {
    if k == 0 {
      AndZero(a);
    } else {
      AndMask(a / 2, k - 1);
      ModDouble(a, Pow2(k - 1));
      assert (Pow2(k) - 1) / 2 == Pow2(k - 1) - 1;
    }
  }

  // ---------------------------------------------------------------- the same on int64

  /** Words with a clear sign bit read the same both ways. */
  lemma PlainWord(x: int)
    requires 0 <= x < TWO63
    ensures ToUint64(x) == x && ToInt64(x) == x
  {
  }

  /** Or-ing disjoint fields of a word that keeps its sign bit clear. */
  lemma Or64Disjoint(x: nat, q: nat, k: nat, b: nat)
    requires x == q * Pow2(k) && b < Pow2(k)
    requires x + b < TWO63
    ensures Or64(x, b) == x + b
  {
    PlainWord(x);
    PlainWord(b);
    PlainWord(x + b);
    OrDisjoint(q, k, b);
  }

  /** Or-ing a ten-bit sequence below a shifted word. */
  lemma OrSequence(n: nat, s: nat)
    requires s < 1024 && n * 1024 + s < TWO63
    ensures Or64(n * 1024, s) == n * 1024 + s
  {
    Pow2Of10();
    Or64Disjoint(n * 1024, n, 10, s);
  }

  lemma Pow2Below63(k: nat)
    requires k <= 62
    ensures Pow2(k) < TWO63
  {
    Pow2Values();
    Pow2Mono(k, 62);
  }

  lemma And64Mask(x: nat, k: nat)
    requires x < TWO63 && k <= 62
    ensures And64(x, Pow2(k) - 1) == x % Pow2(k)
  {
    Pow2Below63(k);
    PlainWord(x);
    PlainWord(Pow2(k) - 1);
    PlainWord(x % Pow2(k));
    AndMask(x, k);
  }

  /** A shift that loses no bits is a multiplication. */
  lemma Shl64Exact(x: nat, k: nat)
    requires x * Pow2(k) < TWO63
    ensures Shl64(x, k) == x * Pow2(k)
  {
  }

  lemma NegatedPower(p: int)
    requires 0 < p <= TWO63
    ensures ToInt64(-p) == -p
  {
  }

  lemma LostWord(c: int)
    ensures ToInt64(-(TWO64 * c)) == 0
  {
    ModUnique(-(TWO64 * c), TWO64, -c, 0);
  }

  lemma WidePower(k: nat)
    requires k >= 64
    ensures Pow2(k) == TWO64 * Pow2(k - 64)
  {
    Pow2Add(64, k - 64);
    Pow2Values();
  }

  lemma NarrowPower(k: nat)
    requires k <= 63
    ensures Pow2(k) <= TWO63
  {
    Pow2Mono(k, 63);
    Pow2Values();
  }

  /** The low mask is 2^k - 1 up to 63 bits; from 64 bits on the shift gives 0 and the mask is -1. */
  lemma LowMaskValue(k: nat)
    ensures k <= 63 ==> LowMask(k) == Pow2(k) - 1
    ensures k >= 64 ==> LowMask(k) == -1
  {
    var p: int := Pow2(k);
    assert Shl64(-1, k) == ToInt64(-p);
    if k <= 63 {
      NarrowPower(k);
      NegatedPower(p);
    } else {
      WidePower(k);
      LostWord(Pow2(k - 64));
    }
  }

  /** A masked increment of a k-bit counter wraps exactly at 2^k. */
  lemma MaskedIncrement(s: nat, k: nat)
    requires k <= 61 && s < Pow2(k)
    ensures And64(s + 1, Pow2(k) - 1) == if s + 1 < Pow2(k) then s + 1 else 0
  {
    Pow2Below63(k);
    And64Mask(s + 1, k);
    if s + 1 < Pow2(k) {
      ModUnique(s + 1, Pow2(k), 0, s + 1);
    } else {
      ModUnique(s + 1, Pow2(k), 1, 0);
    }
  }
}
