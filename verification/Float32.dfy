/** FLOAT identities (property_graph.py): a decimal value rounded to IEEE 754 binary32 with
    integer arithmetic only, and the acceptance of FLOAT values. */
module Float32 {
  import opened Powers

  // ---------- The computation ----------

  /** A finite decimal: its sign and its magnitude as a ratio. */
  datatype Number = Number(signed: bool, numerator: nat, denominator: nat)

  ghost predicate Valid(value: Number) {
    value.denominator > 0
  }

  /** The exponent estimate from bit lengths, corrected once. */
  function Exponent(n: nat, d: nat): int
    requires n > 0 && d > 0
  {
    var estimate := BitLength(n) - BitLength(d);
    var below := if estimate >= 0 then n < Times(d, Pow2(estimate)) else Times(n, Pow2(-estimate)) < d;
    if below then estimate - 1 else estimate
  }

  /** `divmod` and the rounding of the quotient, ties to even. */
  function RoundQuotient(n: nat, d: nat): nat
    requires d > 0
  {
    var rounded, remainder := n / d, n % d;
    if 2 * remainder > d || (2 * remainder == d && rounded % 2 == 1) then rounded + 1 else rounded
  }

  function Shift(n: nat, d: nat): (shift: int)
    requires n > 0 && d > 0
    ensures shift >= -149
  {
    if Exponent(n, d) - 23 >= -149 then Exponent(n, d) - 23 else -149
  }

  lemma TimesNatural(a: nat, b: nat)
    ensures Times(a, b) >= 0 && (a > 0 && b > 0 ==> Times(a, b) > 0)
  {
  }

  /** Shifting the numerator or the denominator, then dividing. */
  function ShiftedQuotient(n: nat, d: nat, shift: int): nat
    requires d > 0
  {
    TimesNatural(d, Pow2(if shift >= 0 then shift else 0));
    TimesNatural(n, Pow2(if shift >= 0 then 0 else -shift));
    if shift >= 0 then RoundQuotient(n, Times(d, Pow2(shift))) else RoundQuotient(Times(n, Pow2(-shift)), d)
  }

  /** The magnitude, in units of 2^-149. */
  function Units(n: nat, d: nat): nat
    requires d > 0
  {
    if n == 0 then 0
    else
      var shift := Shift(n, d);
      TimesNatural(ShiftedQuotient(n, d, shift), Pow2(shift + 149));
      Times(ShiftedQuotient(n, d, shift), Pow2(shift + 149))
  }

  /** `_float_identity`. */
  function FloatIdentity(value: Number): (bool, nat)
    requires Valid(value)
  {
    (value.signed, Units(value.numerator, value.denominator))
  }

  /** The FLOAT case of `_valid_scalar`, on finite numbers. */
  predicate ValidFloat(value: Number) {
    value.numerator < Times(Pow2(128) - Pow2(103), value.denominator)
  }

  // ---------- The exponent ----------

  /** 2^e <= n / d */
  ghost predicate AtLeast(n: nat, d: nat, e: int) {
    if e >= 0 then Times(d, Pow2(e)) <= n else d <= Times(n, Pow2(-e))
  }

  lemma AtLeastScaled(n: nat, d: nat, e: int, c: nat)
    requires c + e >= 0
    ensures AtLeast(n, d, e) <==> Times(d, Pow2(c + e)) <= Times(n, Pow2(c))
  {
    hide Times, Pow2;
    if e >= 0 {
      Pow2Adds(e, c);
      TimesAssociates(d, Pow2(e), Pow2(c));
      TimesOrders(Times(d, Pow2(e)), n, Pow2(c));
    } else {
      Pow2Adds(-e, c + e);
      TimesAssociates(n, Pow2(-e), Pow2(c + e));
      TimesOrders(d, Times(n, Pow2(-e)), Pow2(c + e));
    }
  }

  /** A product of two numbers under their powers of two. */
  lemma PowerProduct(x: nat, a: nat, y: nat, b: nat)
    requires x > 0 && y > 0
    ensures x < Pow2(a) && y <= Pow2(b) ==> Times(x, y) < Pow2(a + b)
    ensures Pow2(a) <= x && Pow2(b) <= y ==> Pow2(a + b) <= Times(x, y)
  {
    hide Times, Pow2;
    Pow2Adds(a, b);
    TimesOrders(x, Pow2(a), y);
    TimesCommutes(Pow2(a), y);
    TimesOrders(y, Pow2(b), Pow2(a));
    TimesCommutes(Pow2(a), Pow2(b));
    TimesOrders(Pow2(b), y, Pow2(a));
  }

  lemma EstimateIsClose(n: nat, d: nat)
    requires n > 0 && d > 0
    ensures var e := BitLength(n) - BitLength(d); AtLeast(n, d, e - 1) && !AtLeast(n, d, e + 1)
  {
    hide Times, Pow2, BitLength, AtLeast;
    var a: int, b: int := BitLength(n), BitLength(d);
    BitLengthBounds(n);
    BitLengthBounds(d);
    AtLeastScaled(n, d, a - b - 1, b);
    PowerProduct(d, b, Pow2(a - 1), a - 1);
    PowerProduct(n, a - 1, Pow2(b), b);
    AtLeastScaled(n, d, a - b + 1, b - 1);
    PowerProduct(n, a, Pow2(b - 1), b - 1);
    PowerProduct(d, b - 1, Pow2(a), a);
  }

  /** The estimate is exact after one correction: 2^e <= n / d < 2^(e + 1). */
  lemma ExponentExact(n: nat, d: nat)
    requires n > 0 && d > 0
    ensures AtLeast(n, d, Exponent(n, d)) && !AtLeast(n, d, Exponent(n, d) + 1)
  {
    hide Times, Pow2, BitLength;
    EstimateIsClose(n, d);
  }

  // ---------- Rounding a quotient ----------

  function Distance(a: int, b: int): nat {
    if a < b then b - a else a - b
  }

  /** `q` is n / d rounded to an integer, ties to even. */
  ghost predicate RoundsTo(n: nat, d: nat, q: nat) {
    2 * Distance(Times(q, d), n) <= d && (2 * Distance(Times(q, d), n) == d ==> q % 2 == 0)
  }

  lemma QuotientRounds(n: nat, d: nat)
    requires d > 0
    ensures RoundsTo(n, d, RoundQuotient(n, d))
  {
    var q, r := n / d, n % d;
    Division(n, d);
    TimesAdds(q, 1, d);
    TimesUnits(d);
  }

  lemma Division(n: nat, d: nat)
    requires d > 0
    ensures n == Times(n / d, d) + n % d
  {
  }

  /** Other quotients are at least one divisor away. */
  lemma Apart(d: nat, p: nat, q: nat)
    requires d > 0 && p < q
    ensures Times(p, d) + d <= Times(q, d) && (p + 1 < q ==> Times(p, d) + 2 * d <= Times(q, d))
  {
    hide Times;
    TimesUnits(d);
    TimesAdds(p, 1, d);
    TimesAdds(p, 2, d);
    TimesOrders(p + 1, q, d);
    TimesOrders(p + 2, q, d);
  }

  lemma RoundingUnique(n: nat, d: nat, p: nat, q: nat)
    requires d > 0 && RoundsTo(n, d, p) && RoundsTo(n, d, q)
    ensures p == q
  {
    hide Times;
    if p < q {
      Apart(d, p, q);
    } else if q < p {
      Apart(d, q, p);
    }
  }

  lemma RoundScales(n: nat, d: nat, c: nat)
    requires d > 0 && c > 0
    ensures Times(d, c) > 0 && Times(n, c) >= 0
    ensures RoundQuotient(Times(n, c), Times(d, c)) == RoundQuotient(n, d)
  {
    hide Times, RoundQuotient;
    TimesNatural(d, c);
    TimesNatural(n, c);
    var q := RoundQuotient(n, d);
    QuotientRounds(n, d);
    QuotientRounds(Times(n, c), Times(d, c));
    TimesAssociates(q, d, c);
    DistanceScales(Times(q, d), n, c);
    TimesAdds(Distance(Times(q, d), n), Distance(Times(q, d), n), c);
    TimesOrders(2 * Distance(Times(q, d), n), d, c);
    TimesOrders(d, 2 * Distance(Times(q, d), n), c);
    RoundingUnique(Times(n, c), Times(d, c), q, RoundQuotient(Times(n, c), Times(d, c)));
  }

  lemma DistanceScales(a: int, b: int, c: nat)
    ensures Distance(Times(a, c), Times(b, c)) == Times(Distance(a, b), c)
  {
  }

  /** No multiple of `d` is nearer to `n` than the rounded one; one as near means that the
      rounded quotient is even. */
  lemma NearestMultiple(n: nat, d: nat, p: nat)
    requires d > 0
    ensures var q := RoundQuotient(n, d);
            && Distance(Times(q, d), n) <= Distance(Times(p, d), n)
            && (p != q && Distance(Times(q, d), n) == Distance(Times(p, d), n) ==> q % 2 == 0)
  {
    hide Times, RoundQuotient;
    var q := RoundQuotient(n, d);
    QuotientRounds(n, d);
    if p < q {
      Apart(d, p, q);
    } else if q < p {
      Apart(d, q, p);
    }
  }

  // ---------- Binary32 values ----------

  ghost predicate IsScaled(m: nat, a: nat, e: nat) {
    a < Pow2(24) && m == Times(a, Pow2(e))
  }

  /** At most 24 significant bits: a binary32 magnitude in units of 2^-149, exponents unbounded. */
  ghost predicate Representable(m: nat) {
    exists a: nat, e: nat :: IsScaled(m, a, e)
  }

  /** The unit in the last place. */
  function Ulp(m: nat): (ulp: nat)
    ensures ulp > 0
  {
    if BitLength(m) <= 24 then 1 else Pow2(BitLength(m) - 24)
  }

  /** The significand of `m` is even. */
  predicate EvenSignificand(m: nat) {
    m / Ulp(m) % 2 == 0
  }

  /** How far `m` units are from n / d, in units of 2^-149 / d. */
  function Off(n: nat, d: nat, m: nat): nat {
    Distance(Times(m, d), Times(n, Pow2(149)))
  }

  /** `r` is n / d rounded as section 4.3.1 of IEEE 754-2019 defines roundTiesToEven, in units
      of 2^-149: no representable value is nearer, and where another is as near, `r` is even. */
  ghost predicate Rounds(n: nat, d: nat, r: nat) {
    && Representable(r)
    && forall m: nat | Representable(m) ::
         && Off(n, d, r) <= Off(n, d, m)
         && (m != r && Off(n, d, r) == Off(n, d, m) ==> EvenSignificand(r))
  }

  /** Above 2^(23 + k) the representable values are multiples of 2^k. */
  lemma RepresentableMultiple(m: nat, k: nat) returns (p: nat)
    requires Representable(m) && Pow2(23 + k) <= m
    ensures m == Times(p, Pow2(k))
  {
    hide Times, Pow2;
    var a: nat, e: nat :| IsScaled(m, a, e);
    if e >= k {
      Pow2Adds(e - k, k);
      TimesAssociates(a, Pow2(e - k), Pow2(k));
      TimesNatural(a, Pow2(e - k));
      p := Times(a, Pow2(e - k));
    } else {
      TimesUnits(Pow2(e));
      assert a != 0;
      PowerProduct(a, 24, Pow2(e), e);
      Pow2Grows(24 + e, 23 + k);
    }
  }

  lemma QuotientUlp(q: nat, k: nat)
    requires q < Pow2(24) && (k > 0 ==> Pow2(23) <= q)
    ensures Times(q, Pow2(k)) >= 0 && Ulp(Times(q, Pow2(k))) == Pow2(k)
  {
    hide Times, Pow2, BitLength;
    TimesNatural(q, Pow2(k));
    if k == 0 {
      PowerOfZero();
      TimesUnits(q);
      TimesCommutes(q, 1);
      ShortNumbers(q);
    } else {
      PowerProduct(q, 24, Pow2(k), k);
      PowerProduct(q, 23, Pow2(k), k);
      BitLengthIs(Times(q, Pow2(k)), 23 + k);
    }
  }

  lemma PowerOfZero()
    ensures Pow2(0) == 1
  {
  }

  lemma ShortNumbers(q: nat)
    requires q < Pow2(24)
    ensures BitLength(q) <= 24
  {
    hide Pow2;
    if q > 0 {
      BitLengthBounds(q);
      if BitLength(q) > 24 {
        Pow2Grows(24, BitLength(q) - 1);
      }
    }
  }

  lemma ExactQuotient(q: nat, d: nat)
    requires d > 0
    ensures Times(q, d) >= 0 && Times(q, d) / d == q
  {
    TimesNatural(q, d);
    var n := Times(q, d);
    Division(n, d);
    TimesNatural(n / d, d);
    if n / d < q {
      Apart(d, n / d, q);
    } else if n / d > q {
      Apart(d, q, n / d);
    }
  }

  /** q * 2^k for a quotient of at most 24 bits, or the power of two just above. */
  lemma QuotientRepresentable(q: nat, k: nat)
    requires q <= Pow2(24) && (k > 0 ==> Pow2(23) <= q)
    ensures Times(q, Pow2(k)) >= 0 && Representable(Times(q, Pow2(k)))
    ensures q % 2 == 0 ==> EvenSignificand(Times(q, Pow2(k)))
  {
    hide Times, Pow2, BitLength;
    TimesNatural(q, Pow2(k));
    if q == Pow2(24) {
      FirstOfBinade(k);
    } else {
      assert IsScaled(Times(q, Pow2(k)), q, k);
      QuotientUlp(q, k);
      ExactQuotient(q, Pow2(k));
    }
  }

  lemma FirstOfBinade(k: nat)
    ensures var m := Times(Pow2(24), Pow2(k)); m >= 0 && Representable(m) && EvenSignificand(m)
  {
    hide Times, Pow2, BitLength;
    Pow2Adds(24, k);
    Pow2Adds(23, k + 1);
    Doubles(22);
    Doubles(23);
    Doubles(24 + k);
    assert IsScaled(Pow2(24 + k), Pow2(23), k + 1);
    BitLengthIs(Pow2(24 + k), 24 + k);
    ExactQuotient(Pow2(23), Pow2(k + 1));
  }

  lemma Doubles(k: nat)
    ensures Pow2(k + 1) == 2 * Pow2(k)
  {
  }

  // ---------- The result is the rounded value ----------

  /** What the exponent and the shift establish: the quotient X / E to be rounded, with
      X = n * 2^149 and E = d * 2^k, has at most 24 bits, and exactly 24 when k > 0. */
  ghost predicate Scaled(n: nat, d: nat, k: nat) {
    var X, E := Times(n, Pow2(149)), Times(d, Pow2(k));
    X >= 0 && E > 0 && X < Times(Pow2(24), E) && (k > 0 ==> Times(Pow2(23), E) <= X)
  }

  lemma ShiftScales(n: nat, d: nat)
    requires n > 0 && d > 0
    ensures Scaled(n, d, Shift(n, d) + 149)
  {
    hide Times, Pow2, AtLeast, Exponent;
    var shift := Shift(n, d);
    var k := shift + 149;
    ExponentExact(n, d);
    TimesNatural(d, Pow2(k));
    TimesNatural(n, Pow2(149));
    FartherIsLess(n, d, Exponent(n, d) + 1, shift + 24);
    AtLeastScaled(n, d, shift + 24, 149);
    ScaleBy(d, 24, k);
    if k > 0 {
      AtLeastScaled(n, d, shift + 23, 149);
      ScaleBy(d, 23, k);
    }
  }

  lemma ScaleBy(d: nat, a: nat, k: nat)
    ensures Times(d, Pow2(a + k)) == Times(Pow2(a), Times(d, Pow2(k)))
  {
    hide Times, Pow2;
    Pow2Adds(a, k);
    TimesAssociates(d, Pow2(a), Pow2(k));
    TimesCommutes(d, Pow2(a));
    TimesAssociates(Pow2(a), d, Pow2(k));
  }

  lemma FartherIsLess(n: nat, d: nat, low: int, high: int)
    requires d > 0 && low <= high && !AtLeast(n, d, low)
    ensures !AtLeast(n, d, high)
  {
    hide Times, Pow2, AtLeast;
    var c: nat := if low < 0 then -low else 0;
    AtLeastScaled(n, d, low, c);
    AtLeastScaled(n, d, high, c);
    Pow2Grows(c + low, c + high);
    TimesOrders(Pow2(c + low), Pow2(c + high), d);
    TimesCommutes(d, Pow2(c + low));
    TimesCommutes(d, Pow2(c + high));
  }

  /** The shifts do not change the quotient that is rounded. */
  lemma ShiftsAgree(n: nat, d: nat, shift: int)
    requires n > 0 && d > 0 && shift >= -149
    ensures var X, E := Times(n, Pow2(149)), Times(d, Pow2(shift + 149));
            X >= 0 && E > 0 && ShiftedQuotient(n, d, shift) == RoundQuotient(X, E)
  {
    hide Times, Pow2, RoundQuotient;
    var k := shift + 149;
    TimesNatural(n, Pow2(149));
    TimesNatural(d, Pow2(k));
    if shift >= 0 {
      Pow2Adds(shift, 149);
      TimesAssociates(d, Pow2(shift), Pow2(149));
      TimesNatural(d, Pow2(shift));
      RoundScales(n, Times(d, Pow2(shift)), Pow2(149));
    } else {
      Pow2Adds(-shift, k);
      TimesAssociates(n, Pow2(-shift), Pow2(k));
      TimesNatural(n, Pow2(-shift));
      RoundScales(Times(n, Pow2(-shift)), d, Pow2(k));
    }
  }

  lemma UnitsAre(n: nat, d: nat) returns (k: nat, q: nat)
    requires n > 0 && d > 0
    ensures Scaled(n, d, k) && q == RoundQuotient(Times(n, Pow2(149)), Times(d, Pow2(k)))
    ensures Units(n, d) == Times(q, Pow2(k))
  {
    hide Times, Pow2, RoundQuotient, ShiftedQuotient, Shift;
    k := Shift(n, d) + 149;
    ShiftScales(n, d);
    ShiftsAgree(n, d, Shift(n, d));
    q := RoundQuotient(Times(n, Pow2(149)), Times(d, Pow2(k)));
  }

  lemma RoundedBounds(n: nat, d: nat, k: nat)
    requires Scaled(n, d, k)
    ensures var q := RoundQuotient(Times(n, Pow2(149)), Times(d, Pow2(k))); q <= Pow2(24) && (k > 0 ==> Pow2(23) <= q)
  {
    hide Times, Pow2, RoundQuotient;
    var X, E := Times(n, Pow2(149)), Times(d, Pow2(k));
    var q := RoundQuotient(X, E);
    QuotientRounds(X, E);
    if q > Pow2(24) {
      Apart(E, Pow2(24), q);
    }
    if k > 0 && q < Pow2(23) {
      Apart(E, q, Pow2(23));
    }
  }

  lemma OffMultiple(n: nat, d: nat, p: nat, k: nat)
    ensures Times(p, Pow2(k)) >= 0
    ensures Off(n, d, Times(p, Pow2(k))) == Distance(Times(p, Times(d, Pow2(k))), Times(n, Pow2(149)))
  {
    hide Times, Pow2;
    TimesNatural(p, Pow2(k));
    TimesAssociates(p, Pow2(k), d);
    TimesCommutes(d, Pow2(k));
  }

  /** Every candidate against the computed value. */
  lemma NoneNearer(n: nat, d: nat, m: nat)
    requires n > 0 && d > 0 && Representable(m)
    ensures Off(n, d, Units(n, d)) <= Off(n, d, m)
    ensures m != Units(n, d) && Off(n, d, Units(n, d)) == Off(n, d, m) ==> EvenSignificand(Units(n, d))
  {
    hide Times, Pow2, RoundQuotient, Units, Representable, EvenSignificand;
    var k, q := UnitsAre(n, d);
    var X, E := Times(n, Pow2(149)), Times(d, Pow2(k));
    RoundedBounds(n, d, k);
    QuotientRepresentable(q, k);
    OffMultiple(n, d, q, k);
    if k == 0 || Pow2(23 + k) <= m {
      var p := AsMultiple(m, k);
      OffMultiple(n, d, p, k);
      NearestMultiple(X, E, p);
    } else {
      ScaleBy(d, 23, k);
      TimesCommutes(d, Pow2(23 + k));
      TimesOrders(m, Pow2(23 + k), d);
      NearestMultiple(X, E, Pow2(23));
    }
  }

  lemma AsMultiple(m: nat, k: nat) returns (p: nat)
    requires Representable(m) && (k == 0 || Pow2(23 + k) <= m)
    ensures m == Times(p, Pow2(k))
  {
    if k == 0 {
      PowerOfZero();
      p := m;
    } else {
      p := RepresentableMultiple(m, k);
    }
  }

  lemma UnitsRepresentable(n: nat, d: nat)
    requires d > 0
    ensures Representable(Units(n, d))
  {
    hide Times, RoundQuotient, Scaled, ShiftedQuotient;
    if n == 0 {
      TimesUnits(Pow2(0));
      assert IsScaled(0, 0, 0);
    } else {
      var k, q := UnitsAre(n, d);
      RoundedBounds(n, d, k);
      QuotientRepresentable(q, k);
    }
  }

  /** The computed magnitude is the correctly rounded one, for every ratio. */
  lemma UnitsRound(n: nat, d: nat)
    requires d > 0
    ensures Rounds(n, d, Units(n, d))
  {
    hide Times, Pow2, Representable, EvenSignificand;
    UnitsRepresentable(n, d);
    forall m: nat | Representable(m)
      ensures Off(n, d, Units(n, d)) <= Off(n, d, m)
      ensures m != Units(n, d) && Off(n, d, Units(n, d)) == Off(n, d, m) ==> EvenSignificand(Units(n, d))
    {
      if n == 0 {
        ZeroOff(d, m);
      } else {
        NoneNearer(n, d, m);
      }
    }
  }

  lemma ZeroOff(d: nat, m: nat)
    requires d > 0
    ensures Off(0, d, 0) == 0 && (m > 0 ==> Off(0, d, m) > 0)
  {
  }
}
