/** Integer division, and the exact integer forms of the two roundings the service uses:
    Python's `round` (nearest, ties to the even neighbour) and `math.ceil` of a quotient. */
module Arithmetic {

  function Min(a: int, b: int): int {
    if a < b then a else b
  }

  lemma Distribute(a: int, b: int)
    ensures a * (b + 1) == a * b + a
  {
  }

  /** A multiple of d is zero or at least d away from it. */
  lemma MultipleGap(k: int, d: int)
    requires d >= 1
    ensures k >= 1 ==> k * d >= d
    ensures k <= -1 ==> k * d <= -d
    ensures k == 0 ==> k * d == 0
  {
    if k >= 1 { assert (k - 1) * d >= 0; } else if k <= -1 { assert (k + 1) * d <= 0; }
  }

  lemma DivModUnique(x: int, d: int, q: int, r: int)
    requires d >= 1 && x == q * d + r && 0 <= r < d
    ensures x / d == q && x % d == r
  {
    MultipleGap(x / d - q, d);
    assert (x / d - q) * d == (x / d) * d - q * d;
    assert x == (x / d) * d + x % d;
  }

  /** Counting up by one either advances the remainder or starts the next quotient. */
  lemma NextDivMod(x: int, d: int)
    requires d >= 1
    ensures x % d + 1 < d ==> (x + 1) / d == x / d && (x + 1) % d == x % d + 1
    ensures x % d + 1 == d ==> (x + 1) / d == x / d + 1 && (x + 1) % d == 0
    ensures 0 <= x % d < d
  {
    var q, r := x / d, x % d;
    assert x == q * d + r;
    if r + 1 < d {
      DivModUnique(x + 1, d, q, r + 1);
    } else {
      assert x + 1 == (q + 1) * d;
      DivModUnique(x + 1, d, q + 1, 0);
    }
  }

  /** When d divides a, a multiple of d less than d above a is not above it at all. */
  lemma MultipleTest(a: int, d: int, k: int)
    requires d >= 1
    ensures a - d * k == 0 ==> a % d == 0
    ensures a % d == 0 && a - d * k > -d ==> a - d * k >= 0
  {
    var q, r := a / d, a % d;
    assert a == q * d + r && 0 <= r < d;
    MultipleGap(q - k, d);
    assert (q - k) * d == q * d - d * k;
  }

  // ---------------------------------------------------------------- rounding

  /** `round(num / den)`. */
  function RoundHalfEven(num: int, den: int): int
    requires den > 0
  {
    var q, r := num / den, num % den;
    if 2 * r < den then q
    else if 2 * r > den then q + 1
    else if q % 2 == 0 then q else q + 1
  }

  /** `r` is a nearest integer to num/den, and on a tie it is the even one. */
  predicate IsRounding(num: int, den: int, r: int)
    requires den > 0
  {
    var twice := 2 * (r * den - num);
    -den <= twice <= den && (twice == den || twice == -den ==> r % 2 == 0)
  }

  /** The distance from `r` to the quotient, measured from the floor. */
  lemma OffsetForm(num: int, den: int, r: int)
    requires den > 0
    ensures r * den - num == (r - num / den) * den - num % den
    ensures 0 <= num % den < den
  {
    assert num == (num / den) * den + num % den;
  }

  /** The rounding is characterised by nearness and the tie rule alone. */
  lemma RoundCharacterised(num: int, den: int, r: int)
    requires den > 0
    ensures r == RoundHalfEven(num, den) <==> IsRounding(num, den, r)
  {
    var d := r - num / den;
    OffsetForm(num, den, r);
    MultipleGap(d, den);
    MultipleGap(d - 1, den);
    Distribute(den, d - 1);
    OffsetDecides(num / den, num % den, den, r, d * den);
  }

  lemma OffsetDecides(q: int, m: int, den: int, r: int, offset: int)
    requires 0 <= m < den
    requires r == q ==> offset == 0
    requires r == q + 1 ==> offset == den
    requires r >= q + 2 ==> offset >= 2 * den
    requires r <= q - 1 ==> offset <= -den
    ensures var twice := 2 * (offset - m);
            var rounded := if 2 * m < den then q
                           else if 2 * m > den then q + 1
                           else if q % 2 == 0 then q else q + 1;
            r == rounded <==> -den <= twice <= den && (twice == den || twice == -den ==> r % 2 == 0)
  {
    if r == q {
    } else if r == q + 1 {
      assert q % 2 == 0 <==> (q + 1) % 2 == 1;
    }
  }

  /** A whole quotient rounds to itself. */
  lemma RoundExact(q: int, den: int)
    requires den > 0
    ensures RoundHalfEven(q * den, den) == q
  {
    hide RoundHalfEven;
    RoundCharacterised(q * den, den, q);
  }

  /** `round(x)`. */
  function RoundReal(x: real): int {
    var q := x.Floor;
    var rest := x - q as real;
    if rest < 0.5 then q
    else if rest > 0.5 then q + 1
    else if q % 2 == 0 then q else q + 1
  }

  /** Again, nearness and the tie rule say it all. */
  lemma RealRoundCharacterised(x: real, r: int)
    ensures r == RoundReal(x)
            <==> -0.5 <= r as real - x <= 0.5 && (r as real - x == 0.5 || r as real - x == -0.5 ==> r % 2 == 0)
  {
    var q := x.Floor;
    if r == q + 1 {
      assert q % 2 == 0 <==> (q + 1) % 2 == 1;
    } else if r >= q + 2 {
      assert r as real >= q as real + 2.0;
    } else if r <= q - 1 {
      assert r as real <= q as real - 1.0;
    }
  }

  lemma RealRoundMonotone(x: real, y: real)
    requires x <= y
    ensures RoundReal(x) <= RoundReal(y)
  {
    hide RoundReal;
    RealRoundCharacterised(x, RoundReal(x));
    RealRoundCharacterised(y, RoundReal(y));
  }

  /** The two roundings agree on quotients. */
  lemma RoundRealIsRound(num: int, den: int)
    requires den > 0
    ensures RoundReal(num as real / den as real) == RoundHalfEven(num, den)
  {
    hide RoundReal, RoundHalfEven, IsRounding;
    var x := num as real / den as real;
    var r := RoundHalfEven(num, den);
    RoundCharacterised(num, den, r);
    RealRoundCharacterised(x, r);
    GapScales(num, den, r);
    GapIsRounding(num, den, r, r as real - x);
  }

  lemma ProductAsReal(a: int, b: int)
    ensures (a * b) as real == a as real * b as real
  {
  }

  lemma GapScales(num: int, den: int, r: int)
    requires den > 0
    ensures (r as real - num as real / den as real) * den as real == (r * den - num) as real
  {
    var x := num as real / den as real;
    assert x * den as real == num as real;
    assert (r as real - x) * den as real == r as real * den as real - x * den as real;
    ProductAsReal(r, den);
  }

  lemma GapIsRounding(num: int, den: int, r: int, gap: real)
    requires den > 0 && gap * den as real == (r * den - num) as real
    ensures IsRounding(num, den, r) <==> -0.5 <= gap <= 0.5 && (gap == 0.5 || gap == -0.5 ==> r % 2 == 0)
  {
    var twice := 2 * (r * den - num);
    assert twice as real == 2.0 * (gap * den as real);
    ScaledBound(gap, den as real, twice as real);
    assert twice == den <==> twice as real == den as real;
    assert twice == -den <==> twice as real == -(den as real);
  }

  lemma ScaledBound(gap: real, den: real, twice: real)
    requires den > 0.0 && twice == 2.0 * (gap * den)
    ensures -0.5 <= gap <= 0.5 <==> -den <= twice <= den
    ensures gap == 0.5 <==> twice == den
    ensures gap == -0.5 <==> twice == -den
  {
    assert twice - den == (2.0 * gap - 1.0) * den;
    assert twice + den == (2.0 * gap + 1.0) * den;
    SignOfProduct(2.0 * gap - 1.0, den);
    SignOfProduct(2.0 * gap + 1.0, den);
  }

  lemma SignOfProduct(a: real, den: real)
    requires den > 0.0
    ensures a > 0.0 <==> a * den > 0.0
    ensures a == 0.0 <==> a * den == 0.0
  {
  }

  /** `math.ceil(num / den)`. */
  function CeilDiv(num: int, den: int): int
    requires den > 0
  {
    -((-num) / den)
  }

  /** The ceiling overshoots the quotient by less than one unit, and only upwards. */
  lemma CeilCharacterised(num: int, den: int, c: int)
    requires den > 0
    ensures c == CeilDiv(num, den) <==> 0 <= c * den - num < den
  {
    OffsetForm(-num, den, -c);
    MultipleGap(-c - (-num) / den, den);
  }
}
