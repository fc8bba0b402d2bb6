/** Arithmetic of JavaScript numbers, idealised as reals: the truncating `%`
    operator and the floored modulo that the clock builds from it. */
module JsMath {

  /** The divisors the clock applies `%` with: minutes per hour, degrees per
      turn, minutes per day. */
  predicate ClockModulus(m: real) {
    m == 60.0 || m == 360.0 || m == 1440.0
  }

  /** Rounds toward zero: the quotient that JavaScript's `%` is defined by. */
  function Trunc(y: real): (t: int)
    ensures 0.0 <= y ==> 0 <= t && t as real <= y < t as real + 1.0
    ensures y < 0.0 ==> t <= 0 && t as real - 1.0 < y <= t as real
  {
    if y >= 0.0 then y.Floor else -((-y).Floor)
  }

  /** JavaScript's `x % m`: the remainder keeps the sign of x and differs
      from x by a whole number of m's. */
  function JsRem(x: real, m: real): (r: real)
    requires ClockModulus(m)
    ensures 0.0 <= x ==> 0.0 <= r < m
    ensures x < 0.0 ==> -m < r <= 0.0
    ensures x - r == Trunc(x / m) as real * m
  {
    x - Trunc(x / m) as real * m
  }

  /** The floored modulo of mathematics: the reference that the clock's
      wrap-around is measured against. */
  function FloorMod(x: real, m: real): (r: real)
    requires ClockModulus(m)
    ensures 0.0 <= r < m
    ensures x - r == (x / m).Floor as real * m
  {
    x - (x / m).Floor as real * m
  }

  /** A value in [0, m) that differs from x by a whole number of m's is the
      floored modulo of x. */
  lemma {:induction false} FloorModUnique(x: real, m: real, r: real, k: int)
    requires ClockModulus(m)
    requires 0.0 <= r < m
    requires x - r == k as real * m
    ensures r == FloorMod(x, m)
  {
    if m == 60.0 {
      assert (x / 60.0).Floor == k;
    } else if m == 360.0 {
      assert (x / 360.0).Floor == k;
    } else {
      assert (x / 1440.0).Floor == k;
    }
  }

  /** The clock's `((x % m) + m) % m` is the floored modulo, whatever the sign of x. */
  lemma {:induction false} WrapIsFloorMod(x: real, m: real)
    requires ClockModulus(m)
    ensures JsRem(JsRem(x, m) + m, m) == FloorMod(x, m)
  {
    var r1 := JsRem(x, m);
    var t1 := Trunc(x / m);
    var t2 := Trunc((r1 + m) / m);
    FloorModUnique(x, m, JsRem(r1 + m, m), t1 + t2 - 1);
  }

  /** On non-negative numbers JavaScript's `%` already is the floored modulo. */
  lemma {:induction false} JsRemOfNonNegative(x: real, m: real)
    requires ClockModulus(m) && 0.0 <= x
    ensures JsRem(x, m) == FloorMod(x, m)
  {
    FloorModUnique(x, m, JsRem(x, m), Trunc(x / m));
  }

  /** Shifting by whole multiples of m does not change the floored modulo. */
  lemma {:induction false} FloorModShift(x: real, m: real, k: int)
    requires ClockModulus(m)
    ensures FloorMod(x + k as real * m, m) == FloorMod(x, m)
  {
    var r := FloorMod(x, m);
    FloorModUnique(x + k as real * m, m, r, (x / m).Floor + k);
  }
}
