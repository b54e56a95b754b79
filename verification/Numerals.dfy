/** Fixed-width positional numerals in any base, most significant digit first. */
module Numerals {
  predicate DigitsIn(ds: seq<nat>, base: nat) {
    forall i :: 0 <= i < |ds| ==> ds[i] < base
  }

  function Pow(base: nat, w: nat): (p: nat)
    ensures base > 0 ==> p > 0
  {
    if w == 0 then 1 else Times(Pow(base, w - 1), base)
  }

  function Times(a: nat, b: nat): nat {
    a * b
  }

  function Quotient(n: nat, base: nat): nat
    requires base > 0
  {
    n / base
  }

  function Remainder(n: nat, base: nat): (r: nat)
    requires base > 0
    ensures r < base
  {
    n % base
  }

  function Value(ds: seq<nat>, base: nat): nat {
    if ds == [] then 0 else Times(Value(ds[..|ds| - 1], base), base) + ds[|ds| - 1]
  }

  /** The w low digits of n. */
  function Numeral(n: nat, w: nat, base: nat): (ds: seq<nat>)
    requires base > 0
    ensures |ds| == w && DigitsIn(ds, base)
    decreases w
  {
    if w == 0 then [] else Numeral(Quotient(n, base), w - 1, base) + [Remainder(n, base)]
  }

  lemma Divided(n: nat, base: nat)
    requires base > 0
    ensures n == Times(Quotient(n, base), base) + Remainder(n, base)
  {
  }

  lemma DivideBack(v: nat, d: nat, base: nat)
    requires d < base
    ensures Quotient(Times(v, base) + d, base) == v && Remainder(Times(v, base) + d, base) == d
  {
    hide Times, Quotient, Remainder;
    var n := Times(v, base) + d;
    Divided(n, base);
    SameRemainder(Remainder(n, base), Quotient(n, base), d, v, base);
  }

  lemma TimesMonotone(a: nat, b: nat, c: nat)
    requires a < b
    ensures Times(a, c) + c <= Times(b, c)
  {
    assert (a + 1) * c <= b * c;
  }

  lemma Distribute(v: nat, k: nat, q: nat, base: nat)
    ensures Times(v + Times(k, q), base) == Times(v, base) + Times(k, Times(q, base))
  {
    assert (k * q) * base == k * (q * base);
    assert (v + k * q) * base == v * base + (k * q) * base;
  }

  lemma {:induction false} ValueBound(ds: seq<nat>, base: nat)
    requires base > 0 && DigitsIn(ds, base)
    ensures Value(ds, base) < Pow(base, |ds|)
  {
    hide Times;
    if ds != [] {
      ValueBound(ds[..|ds| - 1], base);
      TimesMonotone(Value(ds[..|ds| - 1], base), Pow(base, |ds| - 1), base);
    }
  }

  lemma {:induction false} NumeralOfValue(ds: seq<nat>, base: nat)
    requires base > 0 && DigitsIn(ds, base)
    ensures Numeral(Value(ds, base), |ds|, base) == ds
  {
    hide Times, Quotient, Remainder;
    if ds != [] {
      DivideBack(Value(ds[..|ds| - 1], base), ds[|ds| - 1], base);
      NumeralOfValue(ds[..|ds| - 1], base);
    }
  }

  /** A numeral forgets exactly the multiples of base^w. */
  lemma {:induction false} ValueOfNumeral(n: nat, w: nat, base: nat) returns (k: nat)
    requires base > 0
    ensures n == Value(Numeral(n, w, base), base) + Times(k, Pow(base, w))
    ensures Value(Numeral(n, w, base), base) < Pow(base, w)
    decreases w
  {
    hide Times, Quotient, Remainder;
    ValueBound(Numeral(n, w, base), base);
    if w == 0 {
      k := n;
      TimesOne(n);
    } else {
      k := ValueOfNumeral(Quotient(n, base), w - 1, base);
      var front := Numeral(Quotient(n, base), w - 1, base);
      assert Numeral(n, w, base)[..w - 1] == front;
      Divided(n, base);
      Distribute(Value(front, base), k, Pow(base, w - 1), base);
    }
  }

  lemma TimesOne(n: nat)
    ensures Times(n, 1) == n
  {
  }

  /** Numbers that differ by multiples of base^w have the same numeral. */
  lemma {:induction false} NumeralOfSum(v: nat, k: nat, w: nat, base: nat)
    requires base > 0 && v < Pow(base, w)
    ensures Numeral(v + Times(k, Pow(base, w)), w, base) == Numeral(v, w, base)
  {
    hide Times, Quotient, Remainder;
    var n := v + Times(k, Pow(base, w));
    var j := ValueOfNumeral(n, w, base);
    var i := ValueOfNumeral(v, w, base);
    var u := Value(Numeral(n, w, base), base);
    SameRemainder(u, j, v, k, Pow(base, w));
    TimesZero(Pow(base, w));
    SameRemainder(Value(Numeral(v, w, base), base), i, v, 0, Pow(base, w));
    NumeralOfValue(Numeral(n, w, base), base);
    NumeralOfValue(Numeral(v, w, base), base);
  }

  lemma TimesZero(m: nat)
    ensures Times(0, m) == 0
  {
  }

  lemma SameRemainder(u: nat, j: nat, v: nat, k: nat, m: nat)
    requires u < m && v < m && u + Times(j, m) == v + Times(k, m)
    ensures u == v && j == k
  {
    hide Times;
    if j < k {
      TimesMonotone(j, k, m);
    } else if k < j {
      TimesMonotone(k, j, m);
    }
  }
}
