/** Python's `round`: to the nearest, and to the even neighbour when two are equally near. */
module Rounding {
  function Round(x: real): int {
    var below := x.Floor;
    var part := x - below as real;
    if part < 0.5 || (part == 0.5 && below % 2 == 0) then below else below + 1
  }

  /** No whole number is nearer, and of two that are equally near it is the even one. */
  lemma RoundIsNearest(x: real)
    ensures x - 0.5 <= Round(x) as real <= x + 0.5
    ensures Round(x) as real == x - 0.5 || Round(x) as real == x + 0.5 ==> Round(x) % 2 == 0
  {
  }

  /** Rounding never reverses an order, and leaves whole numbers alone. */
  lemma RoundIsMonotone(x: real, y: real)
    requires x <= y
    ensures Round(x) <= Round(y)
  {
    assert x.Floor <= y.Floor;
  }

  lemma RoundKeepsWhole(n: int)
    ensures Round(n as real) == n
  {
  }

  /** Adding an even number before or after rounding is the same. */
  lemma RoundShifts(x: real, n: int)
    requires n % 2 == 0
    ensures Round(x + n as real) == Round(x) + n
  {
    assert (x + n as real).Floor == x.Floor + n;
  }

  /** `round(x, 3)`. */
  function Round3(x: real): real {
    Round(x * 1000.0) as real / 1000.0
  }

  lemma Round3IsNear(x: real)
    ensures x - 0.0005 <= Round3(x) <= x + 0.0005
  {
  }

  /** Up to one, the result is 1 exactly from 0.9995 on. */
  lemma Round3IsOneIff(x: real)
    requires x <= 1.0
    ensures Round3(x) == 1.0 <==> x >= 0.9995
  {
    RoundIsMonotone(x * 1000.0, 1000.0);
    RoundIsMonotone(999.5, if x >= 0.9995 then x * 1000.0 else 999.5);
  }
}

/** Facts about products and quotients of reals that the solver has to be walked through. */
module Fractions {
  lemma Positive(a: real, b: real, p: real)
    requires a > 0.0 && b > 0.0 && p == a * b
    ensures p > 0.0
  {
  }

  /** A part of a positive whole is a fraction between 0 and 1, and 1 only if it is the whole. */
  lemma PartOfWhole(a: real, w: real)
    requires 0.0 <= a <= w && w > 0.0
    ensures 0.0 <= a / w <= 1.0 && (a / w) * w == a && (a / w == 1.0 <==> a == w)
  {
    var q := a / w;
    assert q * w == a;
    if q < 0.0 {
      Positive(-q, w, -a);
    } else if q > 1.0 {
      Positive(q - 1.0, w, a - w);
    }
  }
}

module Integers {
  function Min(a: int, b: int): int {
    if a <= b then a else b
  }

  function Max(a: int, b: int): int {
    if a >= b then a else b
  }
}
