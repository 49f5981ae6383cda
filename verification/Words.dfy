/** 64-bit `size_t` arithmetic: wrap-around, bit masks and powers of two. */
module Words {
  const WORD: nat := 0x1_0000_0000_0000_0000

  function Inc(x: nat): nat {
    (x + 1) % WORD
  }

  function Sub(a: nat, b: nat): nat {
    (a - b) % WORD
  }

  function Pow2(k: nat): (p: nat)
    ensures p >= 1
  {
    if k == 0 then 1 else 2 * Pow2(k - 1)
  }

  lemma Pow2Unfolds(k: nat)
    ensures Pow2(0) == 1 && Pow2(k + 1) == 2 * Pow2(k)
  {
  }

  /** Bitwise conjunction, bit by bit. */
  function And(a: nat, b: nat): nat {
    if a == 0 || b == 0 then 0
    else 2 * And(a / 2, b / 2) + if a % 2 == 1 && b % 2 == 1 then 1 else 0
  }

  lemma {:induction false} Pow2Grows(j: nat, k: nat)
    requires j <= k
    ensures Pow2(j) <= Pow2(k)
    ensures j < k ==> Pow2(j) < Pow2(k)
  {
    if j < k {
      Pow2Grows(j, k - 1);
    }
  }

  lemma {:induction false} Pow2Adds(j: nat, k: nat)
    ensures Pow2(j + k) == Pow2(j) * Pow2(k)
  {
    if j > 0 {
      Pow2Adds(j - 1, k);
      assert Pow2(j + k) == 2 * Pow2(j - 1 + k);
      assert 2 * (Pow2(j - 1) * Pow2(k)) == Pow2(j) * Pow2(k);
    }
  }

  lemma Pow2Of64()
    ensures Pow2(63) == 0x8000_0000_0000_0000
    ensures Pow2(64) == WORD
  {
    assert Pow2(4) == 16 && Pow2(64) == 2 * Pow2(63);
    hide Pow2;
    Pow2Adds(4, 4);
    Pow2Adds(8, 8);
    Pow2Adds(16, 16);
    Pow2Adds(32, 32);
  }

  /** Masking with a power of two less one is the remainder. */
  lemma {:induction false} MaskIsRemainder(x: nat, k: nat)
    ensures And(x, Pow2(k) - 1) == x % Pow2(k)
  {
    if k > 0 {
      MaskIsRemainder(x / 2, k - 1);
      MaskDoubles(x, Pow2(k - 1));
    }
  }

  lemma MaskDoubles(x: nat, half: nat)
    requires half > 0 && And(x / 2, half - 1) == (x / 2) % half
    ensures And(x, 2 * half - 1) == x % (2 * half)
  {
    AndOddMask(x, half);
    hide And;
    HalvedRemainder(x, half);
  }

  lemma AndOddMask(x: nat, half: nat)
    requires half > 0
    ensures And(x, 2 * half - 1) == 2 * And(x / 2, half - 1) + x % 2
  {
    assert (2 * half - 1) / 2 == half - 1 && (2 * half - 1) % 2 == 1;
  }

  lemma HalvedRemainder(x: nat, m: nat)
    requires m > 0
    ensures x % (2 * m) == 2 * ((x / 2) % m) + x % 2
  {
    var q, r := (x / 2) / m, (x / 2) % m;
    assert x / 2 == q * m + r;
    assert x == 2 * (q * m + r) + x % 2 == q * (2 * m) + (2 * r + x % 2) by {
      assert 2 * (q * m) == q * (2 * m);
    }
    RemainderIs(x, 2 * m, q, 2 * r + x % 2);
  }

  lemma RemainderIs(x: int, m: nat, q: int, r: nat)
    requires m > 0 && x == q * m + r && r < m
    ensures x % m == r && x / m == q
  {
    var e := x / m - q;
    assert x == x / m * m + x % m;
    assert (x / m - q) * m == r - x % m;
    MultipleIsFar(e, m);
    assert e == 0;
    assert e * m == 0;
  }

  lemma MultipleIsFar(e: int, m: nat)
    ensures e >= 1 ==> e * m >= m
    ensures e <= -1 ==> e * m + m <= 0
  {
  }

  /** Equal remainders less than a modulus apart are the same number. */
  lemma RemainderSeparates(i: int, j: int, m: nat)
    requires m > 0 && i <= j < i + m
    ensures i % m == j % m <==> i == j
  {
    if i % m == j % m {
      assert j - i == (j / m - i / m) * m by {
        assert i == i / m * m + i % m && j == j / m * m + j % m;
      }
      RemainderIs(j - i, m, j / m - i / m, 0);
      RemainderIs(j - i, m, 0, j - i);
    }
  }

  lemma RemainderOfSum(a: int, b: int, m: nat)
    requires m > 0
    ensures (a % m + b) % m == (a + b) % m
    ensures (b - a % m) % m == (b - a) % m
  {
    var q := a / m;
    assert a == q * m + a % m;
    ShiftRemainder(a % m + b, q, m);
    ShiftRemainder(b - a, q, m);
  }

  lemma ShiftRemainder(x: int, q: int, m: nat)
    requires m > 0
    ensures (x + q * m) % m == x % m
  {
    var y := x + q * m;
    assert x == x / m * m + x % m;
    assert y == (x / m + q) * m + x % m by {
      assert (x / m + q) * m == x / m * m + q * m;
    }
    RemainderIs(y, m, x / m + q, x % m);
  }

  /** A wrapped counter masked by a capacity that divides the word is the counter's own slot. */
  lemma {:induction false} WrapThenMask(n: nat, k: nat)
    requires k <= 63
    ensures And(n % WORD, Pow2(k) - 1) == n % Pow2(k)
  {
    hide Pow2, And;
    Pow2Of64();
    Pow2Adds(64 - k, k);
    MaskIsRemainder(n % WORD, k);
    RemainderOfRemainder(n, Pow2(64 - k), Pow2(k), WORD);
  }

  lemma RemainderOfRemainder(n: nat, a: nat, m: nat, w: nat)
    requires m > 0 && w > 0 && w == a * m
    ensures (n % w) % m == n % m
  {
    var q := n / w;
    assert n == q * w + n % w;
    ProductOfThree(q, a, m);
    ShiftRemainder(n % w, q * a, m);
  }

  lemma ProductOfThree(a: nat, b: nat, c: nat)
    ensures a * (b * c) == (a * b) * c
  {
  }

  lemma WrapsLikeACounter(n: nat)
    ensures Inc(n % WORD) == (n + 1) % WORD
  {
    RemainderOfSum(n, 1, WORD);
  }

  /** The wrapped difference of two counters less than a word apart is their real difference. */
  lemma {:induction false} DifferenceSurvivesWrap(n: nat, h: nat)
    requires h <= n < h + WORD
    ensures Sub(n % WORD, h % WORD) == n - h
  {
    RemainderOfSum(h, n % WORD, WORD);
    var back: int := 0 - h;
    RemainderOfSum(n, back, WORD);
    RemainderIs(n - h, WORD, 0, n - h);
  }
}
