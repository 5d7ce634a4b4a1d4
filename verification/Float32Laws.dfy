/** What correct rounding gives: the result is unique, keeps the order, leaves representable
    values alone, and is finite exactly when the value is accepted as a FLOAT. */
module Float32Laws {
  import opened Powers
  import opened Float32

  // ---------- Neighbours ----------

  /** A representable value is a significand of at most 24 bits times its unit in the last place. */
  lemma Significand(m: nat) returns (a: nat, k: nat)
    requires Representable(m)
    ensures m == Times(a, Pow2(k)) && Ulp(m) == Pow2(k) && m / Ulp(m) == a
    ensures a < Pow2(24) && (k > 0 ==> Pow2(23) <= a && Pow2(23 + k) <= m)
  {
    hide Times, Pow2, BitLength, Representable;
    ShortNumbers(0);
    if BitLength(m) <= 24 {
      a, k := m, 0;
      if m > 0 {
        BitLengthBounds(m);
        Pow2Grows(BitLength(m), 24);
      }
      PowerOfZero();
      TimesUnits(m);
      TimesCommutes(m, 1);
    } else {
      k := BitLength(m) - 24;
      BitLengthBounds(m);
      a := RepresentableMultiple(m, k);
      Pow2Adds(24, k);
      Pow2Adds(23, k);
      TimesOrders(a, Pow2(24), Pow2(k));
      TimesOrders(Pow2(23), a, Pow2(k));
    }
    ExactQuotient(a, Pow2(k));
  }

  /** The next value: it is representable, nothing representable lies between, and the two
      significands are not both even. */
  lemma NextValue(m: nat)
    requires Representable(m)
    ensures Representable(m + Ulp(m))
    ensures !(EvenSignificand(m) && EvenSignificand(m + Ulp(m)))
    ensures forall other: nat :: Representable(other) && m < other ==> m + Ulp(m) <= other
  {
    hide Times, Pow2, BitLength, Representable;
    var a, k := Significand(m);
    TimesUnits(Pow2(k));
    TimesAdds(a, 1, Pow2(k));
    QuotientRepresentable(a + 1, k);
    if a + 1 < Pow2(24) {
      QuotientUlp(a + 1, k);
      ExactQuotient(a + 1, Pow2(k));
    } else {
      Doubles(23);
    }
    forall other: nat | Representable(other) && m < other
      ensures m + Ulp(m) <= other
    {
      NothingBetween(m, other, a, k);
    }
  }

  lemma NothingBetween(m: nat, other: nat, a: nat, k: nat)
    requires m == Times(a, Pow2(k)) && Ulp(m) == Pow2(k) && (k > 0 ==> Pow2(23 + k) <= m)
    requires Representable(other) && m < other
    ensures m + Ulp(m) <= other
  {
    hide Times, Pow2, BitLength, Representable, Ulp;
    if k == 0 {
      PowerOfZero();
    } else {
      var p := RepresentableMultiple(other, k);
      TimesOrders(a, p, Pow2(k));
      Apart(Pow2(k), a, p);
    }
  }

  // ---------- Uniqueness ----------

  lemma RoundsOnce(n: nat, d: nat, r: nat, s: nat)
    requires d > 0 && Rounds(n, d, r) && Rounds(n, d, s)
    ensures r >= s
  {
    hide Times, Pow2, BitLength, Representable, EvenSignificand;
    if r < s {
      NextValue(r);
      TimesOrders(r, s, d);
      var next := r + Ulp(r);
      if next < s {
        TimesOrders(r, next, d);
        TimesOrders(next, s, d);
      }
    }
  }

  /** The computed magnitude is the only correctly rounded one. */
  lemma UnitsAreTheRounding(n: nat, d: nat, r: nat)
    requires d > 0
    ensures Rounds(n, d, r) <==> r == Units(n, d)
  {
    hide Rounds, Units;
    UnitsRound(n, d);
    if Rounds(n, d, r) {
      RoundsOnce(n, d, r, Units(n, d));
      RoundsOnce(n, d, Units(n, d), r);
    }
  }

  // ---------- Order and fixed points ----------

  /** n1 / d1 <= n2 / d2 */
  ghost predicate AtMost(n1: nat, d1: nat, n2: nat, d2: nat) {
    Times(n1, d2) <= Times(n2, d1)
  }

  /** Equal ratios are equally far from every value. */
  lemma OffScales(n1: nat, d1: nat, n2: nat, d2: nat, m: nat)
    requires Times(n1, d2) == Times(n2, d1)
    ensures Times(Off(n1, d1, m), d2) == Times(Off(n2, d2, m), d1)
  {
  }

  lemma Swap(a: int, b: int, c: int)
    ensures Times(Times(a, b), c) == Times(Times(a, c), b)
  {
  }

  lemma CompareScaled(x: nat, y: nat, d: nat, u: nat, v: nat, e: nat)
    requires d > 0 && e > 0 && Times(x, e) == Times(u, d) && Times(y, e) == Times(v, d)
    ensures (x <= y <==> u <= v) && (x == y <==> u == v)
  {
  }

  lemma EqualRatiosRoundAlike(n1: nat, d1: nat, n2: nat, d2: nat, r: nat)
    requires d1 > 0 && d2 > 0 && Times(n1, d2) == Times(n2, d1) && Rounds(n1, d1, r)
    ensures Rounds(n2, d2, r)
  {
    hide Times, Pow2, Representable, EvenSignificand, Off;
    forall m: nat | Representable(m)
      ensures Off(n2, d2, r) <= Off(n2, d2, m)
      ensures m != r && Off(n2, d2, r) == Off(n2, d2, m) ==> EvenSignificand(r)
    {
      OffScales(n1, d1, n2, d2, r);
      OffScales(n1, d1, n2, d2, m);
      CompareScaled(Off(n1, d1, r), Off(n1, d1, m), d1, Off(n2, d2, r), Off(n2, d2, m), d2);
    }
  }

  /** A value at least as near to the larger of two candidates lies past their middle. */
  lemma PastMiddle(n: nat, d: nat, near: nat, far: nat)
    requires d > 0 && Off(n, d, near) <= Off(n, d, far)
    ensures far < near ==> 2 * Times(n, Pow2(149)) >= Times(near + far, d)
    ensures near < far ==> 2 * Times(n, Pow2(149)) <= Times(near + far, d)
  {
    hide Times, Pow2;
    TimesOrders(near, far, d);
    TimesOrders(far, near, d);
    TimesAdds(near, far, d);
  }

  /** Rounding keeps the order of values. */
  lemma UnitsMonotone(n1: nat, d1: nat, n2: nat, d2: nat)
    requires d1 > 0 && d2 > 0 && AtMost(n1, d1, n2, d2)
    ensures Units(n1, d1) <= Units(n2, d2)
  {
    hide Times, Pow2, Representable, EvenSignificand, Off, Units;
    var r1, r2 := Units(n1, d1), Units(n2, d2);
    UnitsRound(n1, d1);
    UnitsRound(n2, d2);
    if r2 < r1 {
      PastMiddle(n1, d1, r1, r2);
      PastMiddle(n2, d2, r2, r1);
      Squeeze(n1, d1, n2, d2, r1 + r2);
      EqualRatiosRoundAlike(n1, d1, n2, d2, r1);
      RoundsOnce(n2, d2, r2, r1);
    }
  }

  lemma Squeeze(n1: nat, d1: nat, n2: nat, d2: nat, s: nat)
    requires d1 > 0 && d2 > 0 && AtMost(n1, d1, n2, d2)
    requires 2 * Times(n1, Pow2(149)) >= Times(s, d1) && 2 * Times(n2, Pow2(149)) <= Times(s, d2)
    ensures Times(n1, d2) == Times(n2, d1)
  {
    hide Times, Pow2;
    var p := Pow2(149);
    var X1, X2 := Times(n1, p), Times(n2, p);
    TimesOrders(Times(s, d1), X1 + X1, d2);
    TimesAdds(X1, X1, d2);
    TimesOrders(X2 + X2, Times(s, d2), d1);
    TimesAdds(X2, X2, d1);
    TimesAssociates(s, d1, d2);
    TimesAssociates(s, d2, d1);
    TimesCommutes(d1, d2);
    Swap(n1, p, d2);
    Swap(n2, p, d1);
    TimesOrders(Times(n1, d2), Times(n2, d1), p);
  }

  /** A value that is representable is left alone. */
  lemma UnitsFixRepresentable(n: nat, d: nat, m: nat)
    requires d > 0 && Representable(m) && Times(n, Pow2(149)) == Times(m, d)
    ensures Units(n, d) == m
  {
    hide Times, Pow2, Representable, EvenSignificand, Units;
    UnitsRound(n, d);
    assert Off(n, d, m) == 0;
    TimesOrders(Units(n, d), m, d);
    TimesOrders(m, Units(n, d), d);
  }

  // ---------- Acceptance ----------

  /** The greatest finite binary32 value, (2^24 - 1) * 2^104, in units of 2^-149. */
  function GreatestFinite(): nat {
    Doubles(252);
    Pow2Grows(253, 277);
    Pow2(277) - 2 * Pow2(252)
  }

  lemma PowersAround()
    ensures Pow2(277) >= 2 * Pow2(252)
    ensures Pow2(277) == Times(Pow2(24), Pow2(253)) && Pow2(253) == 2 * Pow2(252)
    ensures GreatestFinite() == Times(Pow2(24) - 1, Pow2(253))
  {
    hide Times, Pow2;
    Pow2Adds(24, 253);
    Doubles(252);
    Pow2Grows(253, 277);
    TimesUnits(Pow2(253));
    TimesAdds(Pow2(24) - 1, 1, Pow2(253));
  }

  lemma GreatestFacts()
    ensures Representable(GreatestFinite()) && Representable(Pow2(277)) && !EvenSignificand(GreatestFinite())
    ensures forall m: nat :: Representable(m) && m < Pow2(277) ==> m <= GreatestFinite()
  {
    hide Times, Pow2, BitLength, Representable;
    PowersAround();
    Doubles(23);
    Pow2Grows(0, 23);
    PowerOfZero();
    QuotientRepresentable(Pow2(24) - 1, 253);
    QuotientRepresentable(Pow2(24), 253);
    QuotientUlp(Pow2(24) - 1, 253);
    ExactQuotient(Pow2(24) - 1, Pow2(253));
    NextValue(GreatestFinite());
  }

  lemma MidpointScaled(n: nat, d: nat)
    requires d > 0
    ensures n < Times(Pow2(128) - Pow2(103), d)
            <==> Times(n, Pow2(149)) < Times(Pow2(277), d) - Times(Pow2(252), d)
  {
    hide Times, Pow2;
    var p := Pow2(149);
    TimesOrders(n, Times(Pow2(128) - Pow2(103), d), p);
    Swap(Pow2(128) - Pow2(103), d, p);
    TimesAdds(Pow2(128) - Pow2(103), Pow2(103), p);
    Pow2Adds(128, 149);
    Pow2Adds(103, 149);
    TimesAdds(Pow2(277) - Pow2(252), Pow2(252), d);
  }

  /** A finite number is accepted as a FLOAT exactly when its rounding is finite. */
  lemma FloatAcceptedExactly(value: Number)
    requires Valid(value)
    ensures ValidFloat(value) <==> FloatIdentity(value).1 <= GreatestFinite()
  {
    hide Times, Pow2, Representable, EvenSignificand, Units;
    var n, d := value.numerator, value.denominator;
    var r := Units(n, d);
    MidpointScaled(n, d);
    GreatestFacts();
    PowersAround();
    UnitsRound(n, d);
    TimesUnits(Pow2(252));
    TimesAdds(GreatestFinite(), 2 * Pow2(252), d);
    TimesAdds(Pow2(252), Pow2(252), d);
    TimesNatural(Pow2(252), d);
    assert Off(n, d, r) <= Off(n, d, Pow2(277)) && Off(n, d, r) <= Off(n, d, GreatestFinite());
    TimesOrders(Pow2(277), r, d);
    TimesOrders(r, GreatestFinite(), d);
  }
}
