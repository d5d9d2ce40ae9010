/** The two C conversions every core file relies on: assigning a floating
    value to an `int` (truncation toward zero) and `/` on two `int`s
    (quotient truncated toward zero).  Dafny's own `/` is Euclidean and
    `.Floor` rounds down, so both are written out here. */
module CArith {

  datatype Option<T> = None | Some(value: T)

  /** C's float-to-int conversion: the fractional part is dropped. */
  function Trunc(r: real): (n: int)
    ensures r >= 0.0 ==> 0 <= n && n as real <= r < n as real + 1.0
    ensures r < 0.0 ==> n <= 0 && n as real - 1.0 < r <= n as real
  {
    if r >= 0.0 then r.Floor else -((-r).Floor)
  }

  function Abs(n: int): nat
  {
    if n < 0 then -n else n
  }

  /** C99 integer division: the quotient of the magnitudes, negated when the
      operands have opposite signs. */
  function CDiv(a: int, b: int): int
    requires b != 0
  {
    var q := Abs(a) / Abs(b);
    if (a < 0) != (b < 0) then -q else q
  }

  lemma NatDivBounds(n: nat, m: nat)
    requires m > 0
    ensures (n / m) * m <= n < (n / m) * m + m
  {
  }

  /** The C quotient never overshoots: q * b lies between 0 and a, and falls
      short of a by less than one |b|. */
  lemma CDivBounds(a: int, b: int)
    requires b != 0
    ensures a >= 0 ==> 0 <= CDiv(a, b) * b <= a < CDiv(a, b) * b + Abs(b)
    ensures a <= 0 ==> CDiv(a, b) * b - Abs(b) < a <= CDiv(a, b) * b <= 0
  {
    var q := Abs(a) / Abs(b);
    var m := Abs(b);
    NatDivBounds(Abs(a), m);
    assert 0 <= q * m;
    var p := CDiv(a, b) * b;
    if a >= 0 && b > 0 {
      assert p == q * m;
    } else if a >= 0 {
      assert p == (-q) * (-m);
      assert p == q * m;
    } else if b > 0 {
      assert p == (-q) * m;
      assert p == -(q * m);
    } else {
      assert p == q * (-m);
      assert p == -(q * m);
    }
  }
}
