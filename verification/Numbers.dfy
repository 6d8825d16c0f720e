/** JavaScript numbers, without rounding error: finite values are exact reals. */
module Numbers {

  datatype Num = Fin(v: real) | PosInf | NegInf | NaN

  const ZERO: Num := Fin(0.0)

  predicate Lt(a: Num, b: Num) {
    match (a, b)
    case (Fin(x), Fin(y)) => x < y
    case (NaN, _) => false
    case (_, NaN) => false
    case (NegInf, _) => b != NegInf
    case (_, PosInf) => a != PosInf
    case _ => false
  }

  /** `a === b` */
  predicate Eq(a: Num, b: Num) {
    a == b && a != NaN
  }

  predicate Le(a: Num, b: Num) {
    Lt(a, b) || Eq(a, b)
  }

  /** `Number.isInteger` */
  predicate IsInteger(a: Num) {
    a.Fin? && a.v == a.v.Floor as real
  }

  predicate IntegerAtLeast(a: Num, minimum: real) {
    IsInteger(a) && a.v >= minimum
  }

  predicate FiniteRange(a: Num, low: real, high: real) {
    a.Fin? && low <= a.v <= high
  }

  predicate FiniteNonnegative(a: Num) {
    a.Fin? && a.v >= 0.0
  }

  /** `Math.min`; the arguments are numbers, not NaN, wherever it is used. */
  function MinNum(a: Num, b: Num): Num {
    if Lt(b, a) then b else a
  }

  function FromCount(n: nat): Num {
    Fin(n as real)
  }

  /** The product; anything but two finite factors gives a value that is not finite. */
  function Times(a: Num, b: Num): Num {
    if a.Fin? && b.Fin? then Fin(a.v * b.v) else NaN
  }

  /** `Math.round(x)` */
  function Round(x: real): int {
    (x + 0.5).Floor
  }

  /** `Math.round(value * 100) / 100` */
  function RoundCents(x: real): real {
    Round(x * 100.0) as real / 100.0
  }

  /** Rounding to two decimals keeps a value of the form `k / 100`. */
  lemma RoundCentsIdempotent(k: int)
    ensures RoundCents(k as real / 100.0) == k as real / 100.0
  {
    assert k as real / 100.0 * 100.0 == k as real;
    assert (k as real + 0.5).Floor == k;
  }

  lemma RoundInRange(x: real, low: int, high: int)
    requires low as real <= x <= high as real
    ensures low <= Round(x) <= high
  {}

  lemma RoundCentsInRange(x: real)
    requires 0.0 <= x <= 100.0
    ensures 0.0 <= RoundCents(x) <= 100.0
  {
    RoundInRange(x * 100.0, 0, 10000);
  }

  /** `score` is `x` to two decimals. */
  predicate ToCents(score: real, x: real) {
    -0.005 <= score - x <= 0.005 && score * 100.0 == (score * 100.0).Floor as real
  }

  lemma WholeCents(k: int)
    ensures k as real / 100.0 * 100.0 == k as real
  {}

  lemma RoundCentsNear(x: real)
    ensures ToCents(RoundCents(x), x)
  {
    RoundNear(x * 100.0);
    CentsNear(x, Round(x * 100.0));
  }

  lemma RoundNear(y: real)
    ensures y - 0.5 <= Round(y) as real <= y + 0.5
  {}

  lemma CentsNear(x: real, k: int)
    requires x * 100.0 - 0.5 <= k as real <= x * 100.0 + 0.5
    ensures ToCents(k as real / 100.0, x)
  {
    WholeCents(k);
  }

  lemma RoundCentsMonotone(x: real, y: real)
    requires x <= y
    ensures RoundCents(x) <= RoundCents(y)
  {
    RoundMonotone(x * 100.0, y * 100.0);
    HundredthsMonotone(Round(x * 100.0), Round(y * 100.0));
  }

  lemma RoundMonotone(x: real, y: real)
    requires x <= y
    ensures Round(x) <= Round(y)
  {}

  lemma HundredthsMonotone(k: int, l: int)
    requires k <= l
    ensures k as real / 100.0 <= l as real / 100.0
  {}
}
