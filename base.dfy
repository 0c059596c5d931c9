/** Option and Result wrappers shared by every module of the model. */
module Base {

  /** A value that may be absent: a missing JSON field, a null state, an unset header. */
  datatype Option<+T> = None | Some(value: T) {
    function GetOr(default: T): T {
      match this
      case Some(v) => v
      case None => default
    }
  }

  /** The outcome of an operation that can fail with an error value. */
  datatype Result<+T, +E> = Ok(value: T) | Err(error: E)

  /** JavaScript truthiness of an optional string: present and non-empty. */
  predicate TruthyStr(a: Option<string>)
  {
    a.Some? && a.value != ""
  }

  /** JavaScript truthiness of an optional number: present and non-zero. */
  predicate TruthyInt(a: Option<int>)
  {
    a.Some? && a.value != 0
  }

  /** `a || d` on an optional string. */
  function OrStr(a: Option<string>, d: string): (r: string)
    ensures TruthyStr(a) ==> r == a.value
    ensures !TruthyStr(a) ==> r == d
  {
    if TruthyStr(a) then a.value else d
  }

  /** `a || d` on an optional number. */
  function OrInt(a: Option<int>, d: int): (r: int)
    ensures TruthyInt(a) ==> r == a.value
    ensures !TruthyInt(a) ==> r == d
  {
    if TruthyInt(a) then a.value else d
  }

  /** JavaScript truthiness of an optional decimal number: present and non-zero. */
  predicate TruthyReal(a: Option<real>)
  {
    a.Some? && a.value != 0.0
  }

  /** `a || d` on an optional decimal number. */
  function OrReal(a: Option<real>, d: real): (r: real)
    ensures TruthyReal(a) ==> r == a.value
    ensures !TruthyReal(a) ==> r == d
  {
    if TruthyReal(a) then a.value else d
  }

  /** Math.round(num / den) for a positive denominator: halves round up. */
  function RoundDiv(num: int, den: int): (r: int)
    requires den > 0
    ensures 2 * den * r <= 2 * num + den < 2 * den * (r + 1)
  {
    (2 * num + den) / (2 * den)
  }

  /** Math.round of the exact percentage 100 * num / den, for a positive denominator:
      JavaScript rounds halves up, so the result is floor(100 * num / den + 1/2). */
  function RoundPercent(num: int, den: int): (r: int)
    requires den > 0
    ensures 2 * den * r <= 200 * num + den < 2 * den * (r + 1)
  {
    (200 * num + den) / (2 * den)
  }

  /** The rounded share of a part in its whole is a percentage. */
  lemma RoundPercentBounds(num: int, den: int)
    requires 0 <= num <= den && den > 0
    ensures 0 <= RoundPercent(num, den) <= 100
  {
    PercentWithin(num, den, RoundPercent(num, den));
  }

  lemma PercentWithin(num: int, den: int, r: int)
    requires 0 <= num <= den && den > 0
    requires 2 * den * r <= 200 * num + den < 2 * den * (r + 1)
    ensures 0 <= r <= 100
  {
    PositiveTimes(2 * den, r + 1);
    PositiveTimes(2 * den, r - 100);
    assert 2 * den * r == 2 * den * (r - 100) + 200 * den;
  }

  /** The sign of a product with a positive factor. */
  lemma PositiveTimes(a: int, b: int)
    requires a > 0
    ensures b <= 0 ==> a * b <= 0
    ensures b > 0 ==> a * b >= a
  {
  }

  /** JavaScript's `%` for a positive divisor: the remainder takes the sign of the
      dividend (it truncates toward zero, where Dafny's `%` is Euclidean). */
  function JsRem(a: int, b: int): (r: int)
    requires b > 0
    ensures a >= 0 ==> r == a % b
    ensures a < 0 ==> r == -((-a) % b) && -b < r <= 0
  {
    if a >= 0 then a % b else -((-a) % b)
  }

  /** Sum of a sequence of integers, from the left. */
  function Sum(xs: seq<int>): int
  {
    if xs == [] then 0 else Sum(xs[..|xs| - 1]) + xs[|xs| - 1]
  }
}
