/** The retry delay of internal/process/state.go, in the 64-bit arithmetic the source uses. */
module BackoffDelays {
  const TWO_64 := 0x1_0000_0000_0000_0000
  const TWO_63 := 0x8000_0000_0000_0000
  const SECOND := 1_000_000_000
  const CAP := 60_000_000_000

  function Pow2(k: nat): nat {
    if k == 0 then 1 else 2 * Pow2(k - 1)
  }

  /** The value an int64 holds after an operation whose exact result is `x`. */
  function Wrap64(x: int): int {
    var r := x % TWO_64;
    if r >= TWO_63 then r - TWO_64 else r
  }

  /** BackoffDelay: one second shifted left, capped at a minute. */
  function Delay(retries: int): int {
    if retries <= 0 then SECOND
    else
      var d := Wrap64(SECOND * Pow2(retries - 1));
      if d > CAP then CAP else d
  }

  /** What the documentation promises for the r-th retry: 2^(r-1) seconds, at most 60. */
  function Promised(r: int): int
    requires r >= 1
  {
    if r > 6 then CAP else SECOND * Pow2(r - 1)
  }

  lemma {:induction false} Pow2Add(a: nat, b: nat)
    ensures Pow2(a + b) == Pow2(a) * Pow2(b)
  {
    if b > 0 {
      Pow2Add(a, b - 1);
      assert Pow2(a + b) == 2 * Pow2(a + (b - 1));
    }
  }

  lemma {:induction false} Pow2Monotone(a: nat, b: nat)
    requires a <= b
    ensures Pow2(a) <= Pow2(b)
  {
    if a < b {
      Pow2Monotone(a, b - 1);
    }
  }

  lemma Pow2Values()
    ensures Pow2(6) == 64
    ensures Pow2(33) == 0x2_0000_0000
    ensures Pow2(34) == 0x4_0000_0000
    ensures Pow2(55) == 0x80_0000_0000_0000
  {
    assert Pow2(6) == 64;
    assert Pow2(11) == 32 * Pow2(6);
    Pow2Add(11, 11);
    Pow2Add(22, 11);
    Pow2Add(33, 1);
    Pow2Add(33, 22);
  }

  /** For the retry counts 1 to 34 the delay is exactly the documented one. */
  lemma DelayExactUpTo34(r: int)
    requires 1 <= r <= 34
    ensures Delay(r) == Promised(r)
  {
    Pow2Values();
    Pow2Monotone(r - 1, 33);
    if r > 6 {
      Pow2Monotone(6, r - 1);
    } else {
      Pow2Monotone(r - 1, 5);
      assert Pow2(6) == 2 * Pow2(5);
    }
  }

  /** From the 56th retry on every bit of the shifted second is lost: the delay is zero. */
  lemma DelayVanishes(r: int)
    requires r >= 56
    ensures Delay(r) == 0
  {
    Pow2Values();
    Pow2Add(55, r - 56);
    var q := Pow2(r - 56);
    assert SECOND * (0x80_0000_0000_0000 * q) == (1953125 * q) * TWO_64;
    MultipleWrapsToZero(1953125 * q);
  }

  lemma MultipleWrapsToZero(q: nat)
    ensures (q * TWO_64) % TWO_64 == 0
  {}

  /** The retry counts past 34 at which the wrapped shift happens to be a large positive number. */
  const LUCKY: set<int> := {38, 42, 43, 46, 48, 51, 52, 54}

  const TWO_20 := 0x10_0000
  const TWO_21 := 0x20_0000
  const TWO_43 := 0x800_0000_0000

  /** The low 21 bits of 1953125 = SECOND / 2^9, shifted left once more each time. */
  const LOW_BITS: seq<int> :=
    [1953125, 1809098, 1521044, 944936, 1889872, 1682592, 1268032,
     438912, 877824, 1755648, 1414144, 731136, 1462272, 827392,
     1654784, 1212416, 327680, 655360, 1310720, 524288, 1048576]

  /** What is left in the top bits of an int64: only 21 bits of `u` survive, the highest as sign. */
  lemma WrapOfHighBits(u: nat)
    ensures Wrap64(u * TWO_43) == (if u % TWO_21 < TWO_20 then u % TWO_21 else u % TWO_21 - TWO_21) * TWO_43
  {
    var v, q := u % TWO_21, u / TWO_21;
    assert u * TWO_43 == q * TWO_64 + v * TWO_43;
    ModShift(q, v * TWO_43);
  }

  lemma ModShift(q: nat, x: nat)
    requires x < TWO_64
    ensures (q * TWO_64 + x) % TWO_64 == x
  {}

  lemma {:induction false} LowBitsAt(j: nat)
    requires j < 21
    ensures (1953125 * Pow2(j)) % TWO_21 == LOW_BITS[j]
  {
    if j > 0 {
      LowBitsAt(j - 1);
      var u := 1953125 * Pow2(j - 1);
      assert 1953125 * Pow2(j) == 2 * u;
      DoubleMod(u);
      assert LOW_BITS[j] == Reduce(2 * LOW_BITS[j - 1]);
    }
  }

  /** Reduction modulo 2^21 of a number below 2^22. */
  function Reduce(x: int): int {
    if x >= TWO_21 then x - TWO_21 else x
  }

  lemma DoubleMod(u: nat)
    ensures (2 * u) % TWO_21 == Reduce(2 * (u % TWO_21))
  {
    var v, q := u % TWO_21, u / TWO_21;
    if 2 * v < TWO_21 {
      Remainder21(2 * q, 2 * v);
    } else {
      Remainder21(2 * q + 1, 2 * v - TWO_21);
    }
  }

  lemma Remainder21(q: nat, x: nat)
    requires x < TWO_21
    ensures (q * TWO_21 + x) % TWO_21 == x
  {}

  /** Between 35 and 55 some bits are lost, and the sign bit decides. */
  lemma DelayPast34(r: int)
    requires 35 <= r <= 55
    ensures r in LUCKY ==> Delay(r) == CAP
    ensures r !in LUCKY ==> Delay(r) < 0
  {
    var j := r - 35;
    var u := 1953125 * Pow2(j);
    Pow2Values();
    Pow2Add(34, j);
    assert SECOND * (0x4_0000_0000 * Pow2(j)) == u * TWO_43;
    WrapOfHighBits(u);
    LowBitsAt(j);
    assert LOW_BITS[j] > 0;
    assert LOW_BITS[j] < TWO_20 <==> r in LUCKY;
  }

  /**
    The exact set of retry counts at which the source's delay is the
    documented one. At all the others it is zero or negative, so the retry
    timer fires at once.
   */
  lemma DelayExactIff(r: int)
    requires r >= 1
    ensures Delay(r) == Promised(r) <==> r <= 34 || r in LUCKY
    ensures Delay(r) != Promised(r) ==> Delay(r) <= 0
  {
    if r <= 34 {
      DelayExactUpTo34(r);
    } else if r <= 55 {
      DelayPast34(r);
    } else {
      DelayVanishes(r);
    }
  }

  /** The count `c` gives the delay documented for failure `r`: they are equal or both capped, or both mean a second. */
  predicate SameDelay(c: int, r: int) {
    if c <= 0 then r == 1
    else (c <= 34 || c in LUCKY) && (c == r || (c > 6 && r > 6))
  }

  lemma SameDelayIff(c: int, r: int)
    requires r >= 1
    ensures Delay(c) == Promised(r) <==> SameDelay(c, r)
  {
    if c >= 1 {
      DelayExactIff(c);
      PromisedPositive(c);
      PromisedPositive(r);
      if c != r { PromisedDiffer(c, r); }
    } else if r > 1 {
      PromisedDiffer(1, r);
    }
  }

  lemma PromisedPositive(r: int)
    requires r >= 1
    ensures Promised(r) > 0
  {
    if r <= 6 { Pow2Monotone(0, r - 1); }
  }

  lemma PromisedDiffer(c: int, r: int)
    requires c >= 1 && r >= 1 && c != r
    ensures Promised(c) == Promised(r) <==> c > 6 && r > 6
  {
    var a, b := if c < r then c else r, if c < r then r else c;
    if a <= 6 {
      Pow2Monotone(a - 1, 5);
      Pow2Values();
      assert Pow2(6) == 2 * Pow2(5);
      if b <= 6 {
        Pow2Monotone(a, b - 1);
        assert Pow2(a) == 2 * Pow2(a - 1);
        Pow2Monotone(0, a - 1);
      }
    }
  }
}
