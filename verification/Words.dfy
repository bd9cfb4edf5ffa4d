/** 64-bit words, the address mask of the store pass, and the bitwise facts its checks rely on. */
module Words {

  const WORD: nat := 0x1_0000_0000_0000_0000

  /** The constant every stored-to address is ANDed with. */
  const MASK: nat := 0x7fff_ffff_ffff

  /** The first address the mask can never produce: 2^47. */
  const LIMIT: nat := 0x8000_0000_0000

  type Word = w: nat | w < WORD

  /** Bitwise AND, bit by bit from the least significant end. */
  function BitAnd(a: nat, b: nat): (r: nat)
    ensures r <= a && r <= b
  {
    if a == 0 || b == 0 then 0 else 2 * BitAnd(a / 2, b / 2) + AndBit(a, b)
  }

  function AndBit(a: nat, b: nat): nat {
    if a % 2 == 1 && b % 2 == 1 then 1 else 0
  }

  /** Addition modulo 2^64. */
  function Sum(a: Word, b: Word): Word {
    if a + b < WORD then a + b else a + b - WORD
  }

  function Min(a: nat, b: nat): nat {
    if a < b then a else b
  }

  function BitNot(a: Word): Word {
    WORD - 1 - a
  }

  /** Masking is the identity below 2^47 and never leaves it. */
  lemma MaskedBelow(a: Word)
    ensures Masked(a) < LIMIT && (a < LIMIT ==> Masked(a) == a)
  {
    hide Masked;
    MaskedIsLow(a);
  }

  function Pow2(n: nat): (p: nat)
    ensures p > 0
  {
    if n == 0 then 1 else 2 * Pow2(n - 1)
  }

  /** What the inserted ptrtoint/and/inttoptr sequence computes. */
  function Masked(a: Word): (m: Word)
  {
    BitAnd(a, MASK)
  }

  /** Masking keeps exactly the low 47 bits. */
  lemma MaskedIsLow(a: Word)
    ensures Masked(a) == a % LIMIT
  {
    hide BitAnd, Pow2;
    Pow2Limit();
    LowBits(a, 47);
  }

  /** The test both skips apply: no bit outside the mask is set exactly when the word is below 2^47. */
  lemma HighBitsClear(v: Word)
    ensures BitAnd(v, BitNot(MASK)) == 0 <==> v < LIMIT
  {
    hide BitAnd, Pow2;
    Pow2Limit();
    AndSplit(v, MASK, 64);
    MaskedIsLow(v);
  }

  /** A word whose bits in z are zero has its bits in c zero whenever z covers c. */
  lemma {:induction false} KnownZero(v: nat, z: nat, c: nat)
    requires BitAnd(v, z) == 0 && BitAnd(z, c) == c
    ensures BitAnd(v, c) == 0
  {
    if v > 0 && c > 0 {
      KnownZero(v / 2, z / 2, c / 2);
    }
  }

  /** A mask and its complement split a word. */
  lemma {:induction false} AndSplit(v: nat, m: nat, n: nat)
    requires v < Pow2(n) && m < Pow2(n)
    ensures BitAnd(v, m) + BitAnd(v, Pow2(n) - 1 - m) == v
  {
    if n > 0 {
      var c := Pow2(n) - 1 - m;
      assert c / 2 == Pow2(n - 1) - 1 - m / 2 && c % 2 == 1 - m % 2;
      AndSplit(v / 2, m / 2, n - 1);
      AndStep(v, m);
      AndStep(v, c);
    }
  }

  lemma AndStep(a: nat, b: nat)
    ensures BitAnd(a, b) == 2 * BitAnd(a / 2, b / 2) + AndBit(a, b)
  {
  }

  lemma {:induction false} LowBits(a: nat, n: nat)
    ensures BitAnd(a, Pow2(n) - 1) == a % Pow2(n)
  {
    if n > 0 {
      LowBits(a / 2, n - 1);
      ModDouble(a, Pow2(n - 1));
      if a > 0 { AndDouble(a, Pow2(n - 1)); }
    }
  }

  lemma AndDouble(a: nat, p: nat)
    requires p > 0 && a > 0
    ensures BitAnd(a, 2 * p - 1) == 2 * BitAnd(a / 2, p - 1) + a % 2
  {
    assert (2 * p - 1) / 2 == p - 1 && (2 * p - 1) % 2 == 1;
  }

  lemma ModDouble(a: nat, p: nat)
    requires p > 0
    ensures a % (2 * p) == 2 * ((a / 2) % p) + a % 2
  {
    var h := a / 2;
    var q, r := h / p, h % p;
    assert a == 2 * h + a % 2;
    assert h == p * q + r;
    assert 2 * (p * q) == (2 * p) * q;
    UniqueRemainder(a, 2 * p, q, 2 * r + a % 2);
  }

  lemma UniqueRemainder(a: nat, m: nat, q: nat, r: nat)
    requires m > 0 && r < m && a == m * q + r
    ensures a % m == r && a / m == q
  {
    var q', r' := a / m, a % m;
    assert a == m * q' + r';
    var d := q' - q;
    assert m * d == r - r' by { assert m * d == m * q' - m * q; }
    MulAtLeast(m, d);
  }

  lemma MulAtLeast(m: nat, d: int)
    ensures d >= 1 ==> m * d >= m
    ensures d <= -1 ==> m * d <= -(m as int)
  {
    assert m * (d - 1) == m * d - m && m * (d + 1) == m * d + m;
    if d >= 1 {
      assert m * (d - 1) >= 0;
    } else if d <= -1 {
      assert m * (-1 - d) >= 0;
    }
  }

  lemma Pow2Limit()
    ensures Pow2(47) == LIMIT && Pow2(64) == WORD
  {
    Pow2Byte(0); Pow2Byte(8); Pow2Byte(16); Pow2Byte(24); Pow2Byte(32); Pow2Byte(40); Pow2Byte(48); Pow2Byte(56);
    assert Pow2(48) == 2 * Pow2(47);
  }

  lemma Pow2Byte(n: nat)
    ensures Pow2(n + 8) == 256 * Pow2(n)
  {
    assert Pow2(n + 8) == 2 * Pow2(n + 7) && Pow2(n + 7) == 2 * Pow2(n + 6) && Pow2(n + 6) == 2 * Pow2(n + 5);
    assert Pow2(n + 2) == 2 * Pow2(n + 1) && Pow2(n + 1) == 2 * Pow2(n);
    assert Pow2(n + 5) == 2 * Pow2(n + 4) && Pow2(n + 4) == 2 * Pow2(n + 3) && Pow2(n + 3) == 2 * Pow2(n + 2);
  }
}
