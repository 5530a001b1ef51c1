/**
 * The per-frame movement step of src/App.jsx: the axis signal is scaled to unit
 * length and integrated, at a fixed speed, over the elapsed frame time.
 * Positions are exact reals; `Math.hypot` of a diagonal signal is the square
 * root of two, which the caller supplies as `root2`.
 */
module Motion {
  import opened Opt
  import opened Input

  /** World units per second (`BASE_SPEED`). */
  const BaseSpeed: real := 200.0

  datatype Vec = Vec(x: real, y: real)

  /** `root2` is the positive square root of two. */
  predicate IsRoot2(root2: real) {
    root2 > 0.0 && root2 * root2 == 2.0
  }

  predicate IsAxis(d: int) {
    -1 <= d <= 1
  }

  /** `Math.hypot(dx, dy)` for an axis signal: the non-negative root of dx² + dy². */
  function Hypot(dx: int, dy: int, root2: real): (len: real)
    requires IsAxis(dx) && IsAxis(dy) && IsRoot2(root2)
    ensures len >= 0.0 && len * len == (dx * dx + dy * dy) as real
    ensures len == 0.0 <==> dx == 0 && dy == 0
  {
    if dx == 0 && dy == 0 then 0.0
    else if dx == 0 || dy == 0 then 1.0
    else root2
  }

  /**
   * `dx /= len; dy /= len`: a vector of length one pointing the way of the
   * signal; a signal along one axis is already of length one and is unchanged.
   */
  function Normalise(dx: int, dy: int, root2: real): (u: Vec)
    requires IsAxis(dx) && IsAxis(dy) && IsRoot2(root2)
    requires dx != 0 || dy != 0
    ensures u.x * u.x + u.y * u.y == 1.0
    ensures u.x * Hypot(dx, dy, root2) == dx as real && u.y * Hypot(dx, dy, root2) == dy as real
    ensures dx == 0 || dy == 0 ==> u == Vec(dx as real, dy as real)
  {
    var len := Hypot(dx, dy, root2);
    QuotientFacts(dx, dy, root2);
    Vec(dx as real / len, dy as real / len)
  }

  /** The arithmetic behind Normalise, one case of the signal at a time. */
  lemma QuotientFacts(dx: int, dy: int, root2: real)
    requires IsAxis(dx) && IsAxis(dy) && IsRoot2(root2)
    requires dx != 0 || dy != 0
    ensures var len := Hypot(dx, dy, root2);
      var ux, uy := dx as real / len, dy as real / len;
      && ux * ux + uy * uy == 1.0
      && ux * len == dx as real && uy * len == dy as real
      && (dx == 0 || dy == 0 ==> ux == dx as real && uy == dy as real)
  {
    if dx != 0 && dy != 0 {
      DiagonalComponent(dx, root2);
      DiagonalComponent(dy, root2);
    } else {
      assert Hypot(dx, dy, root2) == 1.0;
    }
  }

  /** Each component of a normalised diagonal is ±√2/2; its square is one half. */
  lemma DiagonalComponent(d: int, root2: real)
    requires (d == 1 || d == -1) && IsRoot2(root2)
    ensures d as real / root2 == d as real * root2 / 2.0
    ensures (d as real / root2) * (d as real / root2) == 0.5
    ensures (d as real / root2) * root2 == d as real
  {
    var w := d as real * root2 / 2.0;
    assert w * root2 == d as real * (root2 * root2) / 2.0;
    assert w * w == (d * d) as real * (root2 * root2) / 4.0;
  }

  /** `newX = me.x + dx * BASE_SPEED * dt`, and likewise for y. */
  function Advance(p: Vec, u: Vec, dt: real): (q: Vec)
    ensures dt == 0.0 || u == Vec(0.0, 0.0) ==> q == p
    ensures u.x == 0.0 ==> q.x == p.x
    ensures u.y == 0.0 ==> q.y == p.y
  {
    Vec(p.x + u.x * BaseSpeed * dt, p.y + u.y * BaseSpeed * dt)
  }

  /**
   * One frame of the motion loop from position `p`: `None` when the signal is
   * zero (nothing is moved or sent), otherwise the new position.
   */
  function FrameStep(p: Vec, keys: set<string>, dt: real, root2: real): (r: Option<Vec>)
    requires IsRoot2(root2)
    ensures r.None? <==> Signal(keys) == (0, 0)
    ensures r.Some? && Signal(keys).0 == 0 ==> r.value.x == p.x
    ensures r.Some? && Signal(keys).1 == 0 ==> r.value.y == p.y
  {
    var (dx, dy) := Signal(keys);
    if dx != 0 || dy != 0 then Some(Advance(p, Normalise(dx, dy, root2), dt)) else None
  }

  /** No move happens exactly when the axis signal is zero on both axes. */
  lemma NoSignalNoMove(p: Vec, keys: set<string>, dt: real, root2: real)
    requires IsRoot2(root2)
    ensures FrameStep(p, keys, dt, root2).None? <==> Signal(keys) == (0, 0)
  {
  }

  /** Opposing keys alone leave the player where it is: no move is made or sent. */
  lemma OpposingKeysDoNotMove(p: Vec, keys: set<string>, dt: real, root2: real)
    requires IsRoot2(root2)
    requires LeftHeld(keys) == RightHeld(keys) && UpHeld(keys) == DownHeld(keys)
    ensures FrameStep(p, keys, dt, root2) == None
  {
  }

  /** A horizontal step moves x by ±BaseSpeed·dt and keeps y. */
  lemma HorizontalStep(p: Vec, keys: set<string>, dt: real, root2: real)
    requires IsRoot2(root2)
    requires Signal(keys).0 != 0 && Signal(keys).1 == 0
    ensures FrameStep(p, keys, dt, root2) == Some(Vec(p.x + Signal(keys).0 as real * BaseSpeed * dt, p.y))
  {
  }

  /** A vertical step moves y by ±BaseSpeed·dt and keeps x. */
  lemma VerticalStep(p: Vec, keys: set<string>, dt: real, root2: real)
    requires IsRoot2(root2)
    requires Signal(keys).0 == 0 && Signal(keys).1 != 0
    ensures FrameStep(p, keys, dt, root2) == Some(Vec(p.x, p.y + Signal(keys).1 as real * BaseSpeed * dt))
  {
  }

  /** With no elapsed time a held key still yields a move, to the same position. */
  lemma ZeroElapsedTime(p: Vec, keys: set<string>, root2: real)
    requires IsRoot2(root2)
    requires Signal(keys) != (0, 0)
    ensures FrameStep(p, keys, 0.0, root2) == Some(p)
  {
  }

  /** Every move covers BaseSpeed·|dt|, diagonals included: no √2 speed-up. */
  lemma StepLength(p: Vec, keys: set<string>, dt: real, root2: real)
    requires IsRoot2(root2)
    requires FrameStep(p, keys, dt, root2).Some?
    ensures var q := FrameStep(p, keys, dt, root2).value;
      (q.x - p.x) * (q.x - p.x) + (q.y - p.y) * (q.y - p.y) == (BaseSpeed * dt) * (BaseSpeed * dt)
  {
    var (dx, dy) := Signal(keys);
    var u := Normalise(dx, dy, root2);
    var q := FrameStep(p, keys, dt, root2).value;
    var k := BaseSpeed * dt;
    assert q.x - p.x == u.x * k && q.y - p.y == u.y * k;
    calc {
      (u.x * k) * (u.x * k) + (u.y * k) * (u.y * k);
      (u.x * u.x + u.y * u.y) * (k * k);
      k * k;
    }
  }

  /** The direction of a move is the direction of the signal on each axis. */
  lemma StepFollowsSignal(p: Vec, keys: set<string>, dt: real, root2: real)
    requires IsRoot2(root2) && dt > 0.0
    requires FrameStep(p, keys, dt, root2).Some?
    ensures var q := FrameStep(p, keys, dt, root2).value;
      && (Signal(keys).0 > 0 ==> q.x > p.x) && (Signal(keys).0 < 0 ==> q.x < p.x)
      && (Signal(keys).1 > 0 ==> q.y > p.y) && (Signal(keys).1 < 0 ==> q.y < p.y)
  {
    var (dx, dy) := Signal(keys);
    var u := Normalise(dx, dy, root2);
    var len := Hypot(dx, dy, root2);
    assert u.x * len == dx as real && u.y * len == dy as real;
    assert dx > 0 ==> u.x > 0.0;
    assert dx < 0 ==> u.x < 0.0;
    assert dy > 0 ==> u.y > 0.0;
    assert dy < 0 ==> u.y < 0.0;
  }
}
