/** Exact decimal numerals: a sign, the digits as written and the number of decimal places.

    Two numerals are the same text exactly when all three parts agree ("1.0" is not "1.00", and
    "-0" is not "0"), which is how the gate compares candidate values; Value is the number they
    denote. Rounding to 28 digits is not part of this model. */
module Decimals {

  datatype Numeral = Numeral(negative: bool, digits: nat, places: nat) {
    function Value(): real {
      Signed(negative, digits) / Pow10(places)
    }

    /** The product as decimal arithmetic forms it: digits multiply, places add. */
    function Times(other: Numeral): Numeral {
      Numeral(negative != other.negative, digits * other.digits, places + other.places)
    }

    predicate IsNegative() {
      negative && digits > 0
    }

    predicate IsIntegral()
    {
      digits % TenTo(places) == 0
    }
  }

  function Signed(negative: bool, digits: nat): real {
    if negative then -(digits as real) else digits as real
  }

  const ONE := Numeral(false, 1, 0)

  function Pow10(n: nat): (r: real)
    ensures r > 0.0
  {
    if n == 0 then 1.0 else 10.0 * Pow10(n - 1)
  }

  function TenTo(n: nat): (r: nat)
    ensures r > 0
    ensures r as real == Pow10(n)
  {
    if n == 0 then 1 else 10 * TenTo(n - 1)
  }

  lemma {:induction false} Pow10Sum(m: nat, n: nat)
    ensures Pow10(m + n) == Pow10(m) * Pow10(n)
  {
    if m > 0 {
      Pow10Sum(m - 1, n);
      assert Pow10(m + n) == 10.0 * Pow10(m - 1 + n);
    }
  }

  /** Unit conversion multiplies the number denoted, whatever the places written. */
  lemma TimesMultipliesValues(a: Numeral, b: Numeral)
    ensures a.Times(b).Value() == a.Value() * b.Value()
  {
    Pow10Sum(a.places, b.places);
    SignsMultiply(a.negative, a.digits, b.negative, b.digits);
    QuotientsMultiply(Signed(a.negative, a.digits), Pow10(a.places), Signed(b.negative, b.digits), Pow10(b.places));
  }

  lemma SignsMultiply(m: bool, a: nat, n: bool, b: nat)
    ensures Signed(m != n, a * b) == Signed(m, a) * Signed(n, b)
  {
    assert (a * b) as real == a as real * b as real;
  }

  lemma QuotientsMultiply(x: real, p: real, y: real, q: real)
    requires p > 0.0 && q > 0.0
    ensures p * q > 0.0
    ensures (x * y) / (p * q) == (x / p) * (y / q)
  {
    var u, v := x / p, y / q;
    assert x == u * p && y == v * q;
    assert x * y == (u * v) * (p * q);
    assert p * q > 0.0;
    assert ((u * v) * (p * q)) / (p * q) == u * v;
  }

  /** A numeral is below zero exactly when it carries a sign and a non-zero digit. */
  lemma NegativeIsBelowZero(a: Numeral)
    ensures a.IsNegative() <==> a.Value() < 0.0
  {
    var p := Pow10(a.places);
    var v := a.Value();
    assert v * p == if a.negative then -(a.digits as real) else a.digits as real;
    if v < 0.0 { assert v * p < 0.0; } else { assert v * p >= 0.0; }
  }
}
