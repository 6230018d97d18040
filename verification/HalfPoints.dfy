/**
 Exact scores: clamping, rounding halves to even, and quantising to the half point inside a range.
 */
module HalfPoints {
  function Max(a: real, b: real): real { if a >= b then a else b }

  function Min(a: real, b: real): real { if a <= b then a else b }

  /** The lower bound wins when the bounds cross. */
  function Clamp(value: real, minimum: real, maximum: real): real { Max(minimum, Min(maximum, value)) }

  /** The nearest integer; a half goes to the even one. */
  function RoundEven(x: real): (r: int)
    ensures -0.5 <= r as real - x <= 0.5
    ensures (x - r as real == 0.5 || r as real - x == 0.5) ==> r % 2 == 0
  {
    var f := x.Floor;
    var d := x - f as real;
    if d < 0.5 || (d == 0.5 && f % 2 == 0) then f else f + 1
  }

  function Round2(x: real): real { RoundEven(x * 100.0) as real / 100.0 }

  function QuantizeHalf(value: real, maximum: real): real {
    Clamp(RoundEven(Clamp(value, 0.0, maximum) * 2.0) as real / 2.0, 0.0, maximum)
  }

  predicate OnGrid(x: real) { x * 2.0 == (x * 2.0).Floor as real }

  lemma RoundEvenOfInt(k: int)
    ensures RoundEven(k as real) == k
  {
  }

  lemma RoundEvenMonotone(x: real, y: real)
    requires x <= y
    ensures RoundEven(x) <= RoundEven(y)
  {
  }

  lemma HalfIsOnGrid(k: int)
    ensures OnGrid(k as real / 2.0)
  {
    assert k as real / 2.0 * 2.0 == k as real;
  }

  /** A quantised score lies between zero and the maximum, on the half-point grid or at the maximum, and within
      a quarter point of the clamped value. */
  lemma QuantizeRange(value: real, maximum: real)
    ensures 0.0 <= QuantizeHalf(value, maximum) <= Max(0.0, maximum)
    ensures OnGrid(QuantizeHalf(value, maximum)) || QuantizeHalf(value, maximum) == maximum
    ensures -0.25 <= QuantizeHalf(value, maximum) - Clamp(value, 0.0, maximum) <= 0.25
  {
    var k := RoundEven(Clamp(value, 0.0, maximum) * 2.0);
    HalfIsOnGrid(k);
    HalfIsOnGrid(0);
  }

  /** Quantising again changes nothing, also at a maximum off the grid. */
  lemma QuantizeIsIdempotent(value: real, maximum: real)
    ensures Clamp(QuantizeHalf(value, maximum), 0.0, maximum) == QuantizeHalf(value, maximum)
    ensures QuantizeHalf(QuantizeHalf(value, maximum), maximum) == QuantizeHalf(value, maximum)
  {
    var c := Clamp(value, 0.0, maximum);
    var k := RoundEven(c * 2.0);
    var q := QuantizeHalf(value, maximum);
    if k as real / 2.0 <= maximum {
      RoundEvenOfInt(k);
    } else if maximum >= 0.0 {
      RoundEvenMonotone(c * 2.0, maximum * 2.0);
    }
  }

  /** A grid score in range is its own quantisation. */
  lemma QuantizeKeepsGrid(value: real, maximum: real)
    requires OnGrid(value) && 0.0 <= value <= maximum
    ensures QuantizeHalf(value, maximum) == value
  {
    RoundEvenOfInt((value * 2.0).Floor);
  }

  lemma Round2KeepsGrid(value: real)
    requires OnGrid(value)
    ensures Round2(value) == value
  {
    var k := (value * 2.0).Floor;
    assert value * 100.0 == (50 * k) as real;
    RoundEvenOfInt(50 * k);
  }

  lemma GridSum(a: real, b: real)
    requires OnGrid(a) && OnGrid(b)
    ensures OnGrid(a + b)
  {
    assert (a + b) * 2.0 == ((a * 2.0).Floor + (b * 2.0).Floor) as real;
  }
}
