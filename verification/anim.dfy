/**
 * Shared vocabulary of the animation layer: an optional value, 3-vectors,
 * the linear interpolation step every component applies once per frame,
 * and the idealised trigonometry that layouts are allowed to rely on.
 *
 * JavaScript numbers are modelled by `real` (exact arithmetic).
 */
module Anim {

  /** The conventional Some/None datatype, standing in for JavaScript `null`. */
  datatype Option<+T> = None | Some(value: T)

  /** `Math.PI`, written out as the decimal that rounds to the same double. */
  const Pi: real := 3.141592653589793

  datatype Vec3 = Vec3(x: real, y: real, z: real)
  {
    function Sub(o: Vec3): Vec3 { Vec3(x - o.x, y - o.y, z - o.z) }
    function Scale(k: real): Vec3 { Vec3(k * x, k * y, k * z) }
  }

  function Min(a: real, b: real): real { if a <= b then a else b }
  function Max(a: real, b: real): real { if a >= b then a else b }

  /** `r` lies on the closed segment between `a` and `b` (in either order). */
  predicate Between(a: real, r: real, b: real) {
    (a <= r <= b) || (b <= r <= a)
  }

  /**
   * `THREE.MathUtils.lerp(a, b, t)`: moves `a` towards `b` by the fraction `t`.
   * The remaining distance to the target is multiplied by `1 - t`; for
   * `t` in [0, 1] the result never overshoots the target.
   */
  function Lerp(a: real, b: real, t: real): (r: real)
    ensures r - b == (1.0 - t) * (a - b)
    ensures 0.0 <= t <= 1.0 ==> Between(a, r, b)
    ensures t == 1.0 ==> r == b
  {
    var d := b - a;
    ScaledWithin(d, t);
    a + d * t
  }

  /** Scaling by a fraction in [0, 1] keeps a value between 0 and itself. */
  lemma ScaledWithin(d: real, t: real)
    ensures 0.0 <= t <= 1.0 && d >= 0.0 ==> 0.0 <= d * t <= d
    ensures 0.0 <= t <= 1.0 && d <= 0.0 ==> d <= d * t <= 0.0
  {
    if t < 0.0 || t > 1.0 {
    } else if d >= 0.0 {
      assert d * t <= d * 1.0;
    } else {
      assert d * t >= d * 1.0;
    }
  }

  /** `Vector3.lerp`: component-wise `Lerp`. */
  function LerpVec(a: Vec3, b: Vec3, t: real): (r: Vec3)
    ensures r.Sub(b) == a.Sub(b).Scale(1.0 - t)
    ensures 0.0 <= t <= 1.0 ==>
      Between(a.x, r.x, b.x) && Between(a.y, r.y, b.y) && Between(a.z, r.z, b.z)
  {
    var r := Vec3(Lerp(a.x, b.x, t), Lerp(a.y, b.y, t), Lerp(a.z, b.z, t));
    assert r.x - b.x == (1.0 - t) * (a.x - b.x);
    assert r.y - b.y == (1.0 - t) * (a.y - b.y);
    assert r.z - b.z == (1.0 - t) * (a.z - b.z);
    r
  }

  /** `Vector3.setScalar` / a uniformly scaled object: all three components equal `k`. */
  function Uniform(k: real): Vec3 { Vec3(k, k, k) }

  function Pow(x: real, n: nat): real {
    if n == 0 then 1.0 else x * Pow(x, n - 1)
  }

  /** `n` applications of the same lerp step to a scalar. */
  function LerpN(a: real, b: real, t: real, n: nat): real
    decreases n
  {
    if n == 0 then a else LerpN(Lerp(a, b, t), b, t, n - 1)
  }

  /**
   * Repeating a constant-factor lerp `n` times scales the distance to the
   * target by `(1 - t)^n`: the smoothing converges geometrically.
   */
  lemma {:induction false} LerpNDistance(a: real, b: real, t: real, n: nat)
    ensures LerpN(a, b, t, n) - b == Pow(1.0 - t, n) * (a - b)
    decreases n
  {
    if n > 0 {
      var a' := Lerp(a, b, t);
      var p := Pow(1.0 - t, n - 1);
      LerpNDistance(a', b, t, n - 1);
      assert LerpN(a, b, t, n) == LerpN(a', b, t, n - 1);
      assert Pow(1.0 - t, n) == (1.0 - t) * p;
      Regroup(p, 1.0 - t, a - b, a' - b);
    }
  }

  lemma Regroup(p: real, q: real, e: real, d: real)
    requires d == q * e
    ensures p * d == (q * p) * e
  {
  }

  /** Two successive contractions toward the same target compose by multiplying their factors. */
  lemma Geometric(k: real, p: real, a: real, a1: real, fin: real, target: real)
    requires a1 - target == k * (a - target)
    requires fin - target == p * (a1 - target)
    ensures fin - target == (k * p) * (a - target)
  {
    Regroup(p, k, a - target, a1 - target);
  }

  /** One full turn, in radians. */
  const FullTurn: real := 2.0 * Pi

  /** `a` is a whole number of full turns: a yaw of `a` faces the same way as a yaw of 0. */
  predicate WholeTurns(a: real) {
    a / FullTurn == (a / FullTurn).Floor as real
  }

  lemma TurnsAreWhole(k: int)
    ensures WholeTurns(k as real * FullTurn)
  {
    assert (k as real * FullTurn) / FullTurn == k as real;
  }

  lemma WholeTurnsDiff(a: real, b: real)
    requires WholeTurns(a) && WholeTurns(b)
    ensures WholeTurns(a - b)
  {
    var k := (a / FullTurn).Floor - (b / FullTurn).Floor;
    assert (a - b) / FullTurn == k as real;
  }

  /** Truncation toward zero, the rounding JavaScript's `%` uses. */
  function Trunc(x: real): int {
    if x >= 0.0 then x.Floor else -((-x).Floor)
  }

  /** JavaScript's `x % (Math.PI * 2)`: the remainder of truncated division, which takes the dividend's sign. */
  function RemTurn(x: real): (r: real)
    ensures x >= 0.0 ==> 0.0 <= r < FullTurn
    ensures x < 0.0 ==> -FullTurn < r <= 0.0
    ensures -FullTurn < x < FullTurn ==> r == x
    ensures WholeTurns(x - r)
  {
    var y := x / FullTurn;
    var k := Trunc(y);
    assert x == y * FullTurn;
    assert x >= 0.0 ==> k as real <= y < k as real + 1.0;
    assert x < 0.0 ==> k as real - 1.0 < y <= k as real;
    assert -FullTurn < x < FullTurn ==> -1.0 < y < 1.0 && k == 0;
    TurnsAreWhole(k);
    x - k as real * FullTurn
  }

  /** The remainder of floored division by a full turn, which always lies in [0, 2 pi). */
  function FloorRemTurn(x: real): (r: real)
    ensures 0.0 <= r < FullTurn
    ensures 0.0 <= x < FullTurn ==> r == x
    ensures WholeTurns(x - r)
  {
    var k := (x / FullTurn).Floor;
    TurnsAreWhole(k);
    assert 0.0 <= x < FullTurn ==> 0.0 <= x / FullTurn < 1.0;
    x - k as real * FullTurn
  }

  /** A sine or cosine sample: a real in [-1, 1]. */
  predicate Unit(s: real) { -1.0 <= s <= 1.0 }

  /**
   * The laws the model assumes of `Math.cos` / `Math.sin`: bounded by 1,
   * on the unit circle, and negated by a half turn.
   */
  ghost predicate TrigLaws(cos: real -> real, sin: real -> real) {
    && (forall t :: Unit(cos(t)) && Unit(sin(t)))
    && (forall t :: cos(t) * cos(t) + sin(t) * sin(t) == 1.0)
    && (forall t :: cos(t + Pi) == -cos(t) && sin(t + Pi) == -sin(t))
  }
}
