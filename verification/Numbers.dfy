/** JavaScript numbers as the replay script uses them: reals plus the three non-finite values. */
module Numbers {

  datatype Option<+T> = None | Some(value: T)

  datatype Num = NaN | NegInf | Fin(v: real) | PosInf

  const ZERO: Num := Fin(0.0)

  /** `a < b`: false as soon as one side is NaN. */
  predicate Lt(a: Num, b: Num) {
    match (a, b)
    case (Fin(x), Fin(y)) => x < y
    case (NegInf, Fin(_)) => true
    case (NegInf, PosInf) => true
    case (Fin(_), PosInf) => true
    case _ => false
  }

  /** `a <= b`. */
  predicate Le(a: Num, b: Num) {
    Lt(a, b) || (a == b && a != NaN)
  }

  /** The numbers a condition takes for true: all but zero and NaN. */
  predicate Truthy(a: Num) {
    a != NaN && a != ZERO
  }

  /** `a || b`. */
  function Or(a: Num, b: Num): Num {
    if Truthy(a) then a else b
  }

  function MinR(a: real, b: real): real {
    if a <= b then a else b
  }

  function MaxR(a: real, b: real): real {
    if a >= b then a else b
  }

  /** The nearest multiple of 1/scale, halves upward: `Math.round(v * scale)`. */
  function Ticks(v: real, scale: nat): int {
    (v * scale as real + 0.5).Floor
  }

  /** `Math.round(v * scale) / scale`. */
  function Round(v: real, scale: nat): real
    requires scale > 0
  {
    Ticks(v, scale) as real / scale as real
  }

  lemma MulMonotone(a: real, b: real, s: real)
    requires s >= 0.0 && a <= b
    ensures a * s <= b * s
  {
  }

  lemma DivMonotone(x: real, y: real, s: real)
    requires s > 0.0 && x <= y
    ensures x / s <= y / s
  {
  }

  lemma FloorMonotone(x: real, y: real)
    requires x <= y
    ensures x.Floor <= y.Floor
  {
  }

  lemma TicksMonotone(a: real, b: real, scale: nat)
    requires a <= b
    ensures Ticks(a, scale) <= Ticks(b, scale)
  {
    MulMonotone(a, b, scale as real);
    FloorMonotone(a * scale as real + 0.5, b * scale as real + 0.5);
  }

  /** Rounding keeps the order. */
  lemma RoundMonotone(a: real, b: real, scale: nat)
    requires scale > 0 && a <= b
    ensures Round(a, scale) <= Round(b, scale)
  {
    TicksMonotone(a, b, scale);
    DivMonotone(Ticks(a, scale) as real, Ticks(b, scale) as real, scale as real);
  }

  /** A value that is already a multiple of 1/scale is not moved. */
  lemma RoundExact(n: int, scale: nat)
    requires scale > 0
    ensures Round(n as real / scale as real, scale) == n as real / scale as real
  {
    var s := scale as real;
    assert n as real / s * s == n as real;
    assert (n as real + 0.5).Floor == n;
    assert Ticks(n as real / s, scale) == n;
  }

  /** `a` is within half a unit of the last printed digit of `v`. */
  predicate Near(a: real, v: real, scale: nat)
    requires scale > 0
  {
    -0.5 <= (a - v) * scale as real <= 0.5
  }

  /** Rounding moves a value by at most half a unit. */
  lemma RoundIsNear(v: real, scale: nat)
    requires scale > 0
    ensures Near(Round(v, scale), v, scale)
  {
    var s := scale as real;
    assert Round(v, scale) * s == Ticks(v, scale) as real;
    assert (Round(v, scale) - v) * s == Ticks(v, scale) as real - v * s;
  }
}
