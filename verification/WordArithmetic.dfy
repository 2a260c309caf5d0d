/** Machine-word arithmetic: wrapping subtraction, and masks of powers of two. */
module WordArithmetic {
  /** Number of values of a machine word. */
  const WORD: nat := 0x1_0000_0000_0000_0000

  function Wrap(x: nat): nat {
    x % WORD
  }

  function WrapSub(a: nat, b: nat): nat
    requires a < WORD && b < WORD
  {
    if a >= b then a - b else a + WORD - b
  }

  /** Subtraction that stops at zero. */
  function SatSub(a: nat, b: nat): nat {
    if a < b then 0 else a - b
  }

  /** Wrapping subtraction recovers the true distance of two counters that stay within a word of each other. */
  lemma WrapSubExact(a: nat, b: nat)
    requires b <= a < b + WORD
    ensures Wrap(a) < WORD && Wrap(b) < WORD && WrapSub(Wrap(a), Wrap(b)) == a - b
  {
    var q := b / WORD;
    assert b == q * WORD + b % WORD;
    var d := a - q * WORD;
    assert 0 <= d < 2 * WORD;
    if d < WORD {
      ModUnique(a, WORD, q, d);
    } else {
      assert (q + 1) * WORD == q * WORD + WORD;
      ModUnique(a, WORD, q + 1, d - WORD);
    }
  }

  lemma ModUnique(x: nat, m: nat, q: nat, r: nat)
    requires m > 0 && r < m && x == q * m + r
    ensures x % m == r && x / m == q
  {
    var q' := x / m;
    assert x == q' * m + x % m;
    if q' < q {
      MulMonotone(q' + 1, q, m);
    } else if q' > q {
      MulMonotone(q + 1, q', m);
    }
  }

  lemma MulMonotone(a: nat, b: nat, m: nat)
    requires a <= b
    ensures a * m <= b * m
  {
  }

  function Pow2(e: nat): (p: nat)
    ensures p > 0
  {
    if e == 0 then 1 else 2 * Pow2(e - 1)
  }

  /** Bitwise and, bit by bit. */
  function BitAnd(x: nat, y: nat): nat {
    if x == 0 || y == 0 then 0
    else 2 * BitAnd(x / 2, y / 2) + (if x % 2 == 1 && y % 2 == 1 then 1 else 0)
  }

  lemma DoubleMod(y: nat, h: nat, b: nat)
    requires h > 0 && b < 2
    ensures (2 * y + b) % (2 * h) == 2 * (y % h) + b
  {
    var q := y / h;
    assert y == q * h + y % h;
    assert 2 * (q * h) == q * (2 * h);
    ModUnique(2 * y + b, 2 * h, q, 2 * (y % h) + b);
  }

  /** Masking with a power of two less one is a remainder. */
  lemma {:induction false} MaskIsMod(x: nat, e: nat)
    ensures BitAnd(x, Pow2(e) - 1) == x % Pow2(e)
    decreases e
  {
    if e > 0 {
      var h := Pow2(e - 1);
      MaskIsMod(x / 2, e - 1);
      DoubleMod(x / 2, h, x % 2);
      assert (2 * h - 1) / 2 == h - 1 && (2 * h - 1) % 2 == 1;
    }
  }

  /** A power of two below the word size divides it, so wrapping an index does not move its slot. */
  lemma {:induction false} Pow2Splits(e: nat, f: nat)
    requires e <= f
    ensures Pow2(f) == Pow2(f - e) * Pow2(e)
  {
    if e < f {
      Pow2Splits(e, f - 1);
    }
  }

  lemma WordIsPow2()
    ensures WORD == Pow2(64)
  {
    assert Pow2(8) == 256;
    assert Pow2(16) == 65536 by { Pow2Splits(8, 16); }
    assert Pow2(32) == 0x1_0000_0000 by { Pow2Splits(16, 32); }
    assert Pow2(64) == WORD by { Pow2Splits(32, 64); }
  }

  lemma DivMod(x: nat, m: nat)
    requires m > 0
    ensures x == (x / m) * m + x % m && x % m < m
  {
  }

  lemma Distribute(a: nat, q: nat, s: nat, c: nat)
    ensures (a * q + s) * c == a * (q * c) + s * c
  {
    assert (a * q) * c == a * (q * c);
  }

  lemma ModOfMultiple(x: nat, q: nat, c: nat)
    requires q > 0 && c > 0 && q * c > 0
    ensures (x % (q * c)) % c == x % c
  {
    var m := q * c;
    var a, b := x / m, x % m;
    var s, r := b / c, b % c;
    DivMod(x, m);
    DivMod(b, c);
    SumOfMultiples(x, a, q, s, c, r);
  }

  lemma SumOfMultiples(x: nat, a: nat, q: nat, s: nat, c: nat, r: nat)
    requires c > 0 && r < c && x == a * (q * c) + (s * c + r)
    ensures x % c == r
  {
    Distribute(a, q, s, c);
    ModUnique(x, c, a * q + s, r);
  }

  lemma SlotOfWrapped(x: nat, e: nat)
    requires e < 64
    ensures BitAnd(Wrap(x), Pow2(e) - 1) == x % Pow2(e)
  {
    MaskIsMod(Wrap(x), e);
    WordIsPow2();
    Pow2Splits(e, 64);
    ModOfMultiple(x, Pow2(64 - e), Pow2(e));
  }

  /** Positions less than a buffer length apart fall into different slots. */
  lemma SlotsDiffer(a: nat, b: nat, cap: nat)
    requires 0 < b - a < cap
    ensures a % cap != b % cap
  {
    SlotAfter(a, b - a, cap);
  }

  /** The slots that follow position `x`: first up to the end of the buffer, then from its start. */
  lemma SlotAfter(x: nat, j: nat, cap: nat)
    requires cap > 0 && j < cap
    ensures (x + j) % cap == if x % cap + j < cap then x % cap + j else x % cap + j - cap
  {
    var q := x / cap;
    assert x == q * cap + x % cap;
    if x % cap + j < cap {
      ModUnique(x + j, cap, q, x % cap + j);
    } else {
      assert (q + 1) * cap == q * cap + cap;
      ModUnique(x + j, cap, q + 1, x % cap + j - cap);
    }
  }
}
