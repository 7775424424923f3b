/** Small value helpers shared by every module of the model. */
module Base {

  datatype Option<T> = None | Some(value: T)

  /** `d.get(key, default)`: the value when present, the default otherwise. */
  function OrElse<T>(o: Option<T>, default: T): T
  {
    if o.Some? then o.value else default
  }

  /** Python's `min(a, b)` on two numbers. */
  function Min(a: real, b: real): (r: real)
    ensures r <= a && r <= b
    ensures r == a || r == b
  {
    if b < a then b else a
  }

  /** Python's `max(a, b)` on two numbers. */
  function Max(a: real, b: real): (r: real)
    ensures a <= r && b <= r
    ensures r == a || r == b
  {
    if a < b then b else a
  }

  /** `max(lo, min(hi, x))`, the clamp the scorers apply to their running score. */
  function Clamp(x: real, lo: real, hi: real): (r: real)
    requires lo <= hi
    ensures lo <= r <= hi
    ensures lo <= x <= hi ==> r == x
    ensures x < lo ==> r == lo
    ensures hi < x ==> r == hi
  {
    Max(lo, Min(hi, x))
  }

  /** Clamping keeps the order of its inputs. */
  lemma ClampMonotone(a: real, b: real, lo: real, hi: real)
    requires lo <= hi && a <= b
    ensures Clamp(a, lo, hi) <= Clamp(b, lo, hi)
  {
  }

  /** Python's `min(a, b)` on two integers. */
  function MinInt(a: int, b: int): (r: int)
    ensures r <= a && r <= b
    ensures r == a || r == b
  {
    if b < a then b else a
  }

  /** Python's `max(a, b)` on two integers. */
  function MaxInt(a: int, b: int): (r: int)
    ensures a <= r && b <= r
    ensures r == a || r == b
  {
    if a < b then b else a
  }

  /** `min(max(x, lo), hi)` on integers, the clamp of the integer scorers. */
  function ClampInt(x: int, lo: int, hi: int): (r: int)
    requires lo <= hi
    ensures lo <= r <= hi
    ensures lo <= x <= hi ==> r == x
    ensures x < lo ==> r == lo
    ensures hi < x ==> r == hi
  {
    if x < lo then lo else if hi < x then hi else x
  }

  /** `[x]` when `cond` holds and nothing otherwise: one conditional `append`. */
  function When<T>(cond: bool, x: T): seq<T>
  {
    if cond then [x] else []
  }

  lemma WhenMember<T>(cond: bool, x: T, y: T)
    ensures y in When(cond, x) <==> cond && y == x
  {
  }

  /** `a / b` on counts, with the bounds a ratio of counts has. */
  function Fraction(a: nat, b: nat): (r: real)
    requires b > 0
    ensures 0.0 <= r
    ensures a <= b ==> r <= 1.0
    ensures a >= 1 ==> r > 0.0
    ensures r == 1.0 <==> a == b
  {
    FractionBounds(a, b);
    a as real / b as real
  }

  lemma FractionBounds(a: nat, b: nat)
    requires b > 0
    ensures 0.0 <= a as real / b as real
    ensures a <= b ==> a as real / b as real <= 1.0
    ensures a >= 1 ==> a as real / b as real > 0.0
    ensures a as real / b as real == 1.0 <==> a == b
  {
    var r := a as real / b as real;
    assert r * b as real == a as real;
  }

  /** Dividing a multiple of `k` by `k` gives the multiplier back. */
  lemma FractionOfMultiple(k: nat, n: nat)
    requires k > 0
    ensures Fraction(k * n, k) == n as real
  {
    var r := (k * n) as real / k as real;
    assert r * k as real == (k * n) as real;
    assert (k * n) as real == n as real * k as real;
    assert (r - n as real) * k as real == 0.0;
  }

  /** Python's `abs` on a number. */
  function Abs(x: real): (r: real)
    ensures 0.0 <= r && (r == x || r == -x)
  {
    if x < 0.0 then -x else x
  }

  /** Python's `abs` on an integer. */
  function AbsInt(x: int): (r: nat)
    ensures r == x || r == -x
  {
    if x < 0 then -x else x
  }

  /** `1 if b else 0`, used where the source counts the true conditions. */
  function Ind(b: bool): (r: nat)
    ensures r <= 1 && (r == 1 <==> b)
  {
    if b then 1 else 0
  }
}
