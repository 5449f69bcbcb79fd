/** Unsigned 32-bit words as the C code uses them: free-running counters that
    wrap, and the bitwise mask that turns a counter into a ring index. */
module Words {

  const WORD: int := 0x1_0000_0000

  /** uint32_t */
  type Word = n: int | 0 <= n < 0x1_0000_0000

  /** The word a free-running counter holds after `n` increments from zero. */
  function Wrap(n: nat): Word {
    n % WORD
  }

  function Inc(a: Word): Word {
    (a + 1) % WORD
  }

  lemma IncWrap(n: nat)
    ensures Inc(Wrap(n)) == Wrap(n + 1)
  {
  }

  function Add(a: Word, n: nat): Word {
    (a + n) % WORD
  }

  lemma AddWrap(m: nat, n: nat)
    ensures Add(Wrap(m), n) == Wrap(m + n)
  {
  }

  function Sub(a: Word, b: Word): Word {
    (a - b) % WORD
  }

  function Pow2(k: nat): (p: nat)
    ensures p > 0
  {
    if k == 0 then 1 else 2 * Pow2(k - 1)
  }

  /** Bitwise `x & y`. */
  function And(x: nat, y: nat): (z: nat)
    ensures z <= x && z <= y
    decreases x
  {
    if x == 0 || y == 0 then 0
    else (if x % 2 == 1 && y % 2 == 1 then 1 else 0) + 2 * And(x / 2, y / 2)
  }

  lemma ModProduct(n: nat, a: nat, b: nat)
    requires a > 0 && b > 0
    ensures a * b > 0 && (n % (a * b)) % a == n % a
  {
    var q, r := n / (a * b), n % (a * b);
    assert n == a * (b * q) + r;
    ModAddMultiple(r, a, b * q);
  }

  lemma {:induction false} ModAddMultiple(r: nat, a: nat, q: nat)
    requires a > 0
    ensures (a * q + r) % a == r % a
    decreases q
  {
    if q > 0 {
      ModAddMultiple(r, a, q - 1);
      assert a * q + r == (a * (q - 1) + r) + a;
      ModAddOnce(a * (q - 1) + r, a);
    }
  }

  lemma ModAddOnce(x: nat, a: nat)
    requires a > 0
    ensures (x + a) % a == x % a
  {
    var q := x / a;
    assert x + a == a * (q + 1) + x % a;
    ModUnique(x + a, a, q + 1, x % a);
  }

  lemma ModUnique(x: nat, a: nat, q: nat, r: nat)
    requires a > 0 && x == a * q + r && r < a
    ensures x % a == r
  {
    MulSign(a, x / a - q);
  }

  lemma MulSign(a: int, d: int)
    requires a > 0
    ensures d >= 1 ==> a * d >= a
    ensures d <= -1 ==> a * d <= -a
  {
  }

  lemma HalfMod(x: nat, m: nat)
    requires m > 0
    ensures x % (2 * m) == 2 * (x / 2 % m) + x % 2
  {
    var h := x / 2;
    var q, r := h / m, h % m;
    assert h == m * q + r;
    assert x == 2 * h + x % 2;
    assert 2 * (m * q) == (2 * m) * q;
    ModUnique(x, 2 * m, q, 2 * r + x % 2);
  }

  /** Masking with 2^k - 1 is remainder modulo 2^k. */
  lemma {:induction false} AndMask(x: nat, k: nat)
    ensures And(x, Pow2(k) - 1) == x % Pow2(k)
    decreases k
  {
    if k > 0 {
      AndMask(x / 2, k - 1);
      AndOdd(x, Pow2(k - 1) - 1);
      HalfMod(x, Pow2(k - 1));
    }
  }

  lemma AndOdd(x: nat, y: nat)
    ensures And(x, 2 * y + 1) == x % 2 + 2 * And(x / 2, y)
  {
    assert (2 * y + 1) / 2 == y;
  }

  lemma {:induction false} Pow2Split(k: nat, j: nat)
    ensures Pow2(k + j) == Pow2(k) * Pow2(j)
    decreases k
  {
    if k > 0 {
      Pow2Split(k - 1, j);
    }
  }

  lemma Pow2At32()
    ensures Pow2(32) == WORD
  {
    assert Pow2(8) == 256;
    Pow2Split(8, 8);
    Pow2Split(16, 16);
  }

  /** The ring index is a function of the unwrapped count: wrapping past 2^32 is
      invisible because the ring size divides 2^32. */
  lemma MaskedIndex(n: nat, k: nat)
    requires k <= 32
    ensures And(Wrap(n), Pow2(k) - 1) == n % Pow2(k)
  {
    Pow2At32();
    Pow2Split(k, 32 - k);
    ModProduct(n, Pow2(k), Pow2(32 - k));
    AndMask(Wrap(n), k);
  }

  /** Word subtraction recovers the true distance while it is below 2^32. */
  lemma SubWrap(a: nat, b: nat)
    requires b <= a < b + WORD
    ensures Sub(Wrap(a), Wrap(b)) == a - b
  {
  }

  /** Two counts closer than the ring size never share an index. */
  lemma IndexDistinct(a: nat, b: nat, m: nat)
    requires m > 0 && a < b < a + m
    ensures a % m != b % m
  {
    MulSign(m, b / m - a / m);
  }
}
