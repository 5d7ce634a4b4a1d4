/** Products, powers of two and bit lengths. Products of two unknowns are written `Times`, so
    that proofs can use the laws below without unfolding it. */
module Powers {
  function Times(a: int, b: int): int {
    a * b
  }

  lemma TimesCommutes(a: int, b: int)
    ensures Times(a, b) == Times(b, a)
  {
  }

  lemma TimesAssociates(a: int, b: int, c: int)
    ensures Times(Times(a, b), c) == Times(a, Times(b, c))
  {
  }

  lemma TimesAdds(a: int, b: int, c: int)
    ensures Times(a + b, c) == Times(a, c) + Times(b, c)
  {
  }

  lemma TimesUnits(c: int)
    ensures Times(0, c) == 0 && Times(1, c) == c && Times(2, c) == 2 * c
  {
  }

  /** Multiplication by a positive number keeps the order both ways. */
  lemma TimesOrders(a: int, b: int, c: nat)
    requires c > 0
    ensures Times(a, c) <= Times(b, c) <==> a <= b
    ensures Times(a, c) < Times(b, c) <==> a < b
  {
    if a < b {
      TimesGrows(a, b, c);
    } else if b < a {
      TimesGrows(b, a, c);
    }
  }

  lemma TimesGrows(a: int, b: int, c: nat)
    requires a < b && c > 0
    ensures Times(a, c) < Times(b, c)
  {
  }

  function Pow2(n: nat): (p: nat)
    ensures p > 0
  {
    if n == 0 then 1 else 2 * Pow2(n - 1)
  }

  lemma {:induction false} Pow2Adds(a: nat, b: nat)
    ensures Pow2(a + b) == Times(Pow2(a), Pow2(b))
  {
    hide Times;
    if a == 0 {
      TimesUnits(Pow2(b));
    } else {
      Pow2Adds(a - 1, b);
      TimesUnits(Pow2(a - 1));
      TimesAdds(Pow2(a - 1), Pow2(a - 1), Pow2(b));
    }
  }

  lemma {:induction false} Pow2Grows(a: nat, b: nat)
    requires a <= b
    ensures Pow2(a) <= Pow2(b)
    decreases b
  {
    if a < b {
      Pow2Grows(a, b - 1);
    }
  }

  /** `int.bit_length`. */
  function BitLength(n: nat): nat {
    if n == 0 then 0 else 1 + BitLength(n / 2)
  }

  lemma {:induction false} BitLengthBounds(n: nat)
    requires n > 0
    ensures BitLength(n) > 0 && Pow2(BitLength(n) - 1) <= n < Pow2(BitLength(n))
  {
    if n > 1 {
      BitLengthBounds(n / 2);
    } else {
      assert BitLength(1) == 1 && Pow2(0) == 1 && Pow2(1) == 2;
    }
  }

  lemma BitLengthIs(n: nat, k: nat)
    requires Pow2(k) <= n < Pow2(k + 1)
    ensures BitLength(n) == k + 1
  {
    hide Pow2, BitLength;
    BitLengthBounds(n);
    if BitLength(n) <= k {
      Pow2Grows(BitLength(n), k);
    } else if BitLength(n) > k + 1 {
      Pow2Grows(k + 1, BitLength(n) - 1);
    }
  }
}
