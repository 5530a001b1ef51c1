/**
 * The camera of the renderer in src/App.jsx: the offset that centres the local
 * player, the world-to-screen translation, and the scrolling background grid.
 */
module Camera {
  import opened Motion

  /** Distance between grid lines, in world units and pixels alike. */
  const GridPitch: real := 100.0

  /** Vertical gap between a player's circle and its name label. */
  const LabelGap: real := 8.0

  /** `offsetX = me.x - canvas.width / 2` and likewise for y: the local player lands on the viewport centre. */
  function Offset(me: Vec, width: nat, height: nat): (o: Vec)
    ensures ToScreen(me, o) == Vec(width as real / 2.0, height as real / 2.0)
  {
    Vec(me.x - width as real / 2.0, me.y - height as real / 2.0)
  }

  /** `f.x - offsetX`, `f.y - offsetY`: the screen point of a world point. */
  function ToScreen(w: Vec, o: Vec): (s: Vec)
    ensures s.x + o.x == w.x && s.y + o.y == w.y
  {
    Vec(w.x - o.x, w.y - o.y)
  }

  /** The screen point of a name label: `radius + LabelGap` above the circle's centre. */
  function LabelAnchor(w: Vec, radius: real, o: Vec): (a: Vec)
    ensures a.x == ToScreen(w, o).x
    ensures ToScreen(w, o).y - a.y == radius + LabelGap
  {
    Vec(w.x - o.x, w.y - o.y - radius - LabelGap)
  }

  /** The translation keeps distances: two world points are as far apart on screen. */
  lemma ToScreenKeepsDifferences(a: Vec, b: Vec, o: Vec)
    ensures ToScreen(a, o).x - ToScreen(b, o).x == a.x - b.x
    ensures ToScreen(a, o).y - ToScreen(b, o).y == a.y - b.y
  {
  }

  /** A point's screen position relative to the centre is its world position relative to the player. */
  lemma ScreenRelativeToPlayer(me: Vec, w: Vec, width: nat, height: nat)
    ensures var s := ToScreen(w, Offset(me, width, height));
      s.x - width as real / 2.0 == w.x - me.x && s.y - height as real / 2.0 == w.y - me.y
  {
  }

  /** The player at (500, 500) on an 800×600 viewport puts food at (150, 250) on screen at (50, 50). */
  lemma CameraExample()
    ensures Offset(Vec(500.0, 500.0), 800, 600) == Vec(100.0, 200.0)
    ensures ToScreen(Vec(150.0, 250.0), Offset(Vec(500.0, 500.0), 800, 600)) == Vec(50.0, 50.0)
  {
  }

  /** JavaScript's truncation of a quotient towards zero. */
  function Trunc(q: real): (t: int)
    ensures q >= 0.0 ==> t >= 0 && t as real <= q < t as real + 1.0
    ensures q < 0.0 ==> t <= 0 && t as real - 1.0 < q <= t as real
  {
    if q >= 0.0 then q.Floor else -((-q).Floor)
  }

  /**
   * JavaScript's `a % 100`: the remainder after division truncated towards
   * zero, which takes the sign of `a` (Dafny's `%` is Euclidean and never
   * negative).
   */
  function JsRem(a: real): (r: real)
    ensures -GridPitch < r < GridPitch
    ensures a >= 0.0 ==> 0.0 <= r
    ensures a <= 0.0 ==> r <= 0.0
    ensures ((a - r) / GridPitch).Floor as real == (a - r) / GridPitch
  {
    var t := Trunc(a / GridPitch) as real;
    assert (a - (a - GridPitch * t)) / GridPitch == t;
    a - GridPitch * t
  }

  /** For whole numbers the real quotient rounds down to Dafny's integer quotient. */
  lemma FloorOfQuotient(m: nat)
    ensures (m as real / GridPitch).Floor == m / 100
  {
    var q, rem := m / 100, m % 100;
    assert m == q * 100 + rem;
    assert m as real / GridPitch == q as real + rem as real / GridPitch;
  }

  /** On integers JavaScript's remainder is Dafny's on |a|, carrying the sign of a. */
  lemma JsRemOnIntegers(a: int)
    ensures JsRem(a as real) == if a >= 0 then (a % 100) as real else -((-a) % 100) as real
  {
    var m := if a >= 0 then a else -a;
    FloorOfQuotient(m);
    assert m == (m / 100) * 100 + m % 100;
    if a < 0 {
      assert a as real / GridPitch == -(m as real / GridPitch);
    }
  }

  /**
   * The lines of one grid axis: they start at the remainder `-offset % 100`,
   * are exactly `GridPitch` apart, stay below `extent`, and stop only once the
   * next one would no longer fit.
   */
  predicate IsGrid(lines: seq<real>, offset: real, extent: nat)
    ensures IsGrid(lines, offset, extent) ==>
      (forall i :: 0 <= i < |lines| ==> -GridPitch < lines[i] < extent as real)
      && (forall i, j :: 0 <= i < j < |lines| ==> lines[i] < lines[j])
  {
    var start := JsRem(-offset);
    && (forall i :: 0 <= i < |lines| ==> lines[i] == start + GridPitch * i as real)
    && (forall i :: 0 <= i < |lines| ==> lines[i] < extent as real)
    && start + GridPitch * |lines| as real >= extent as real
  }

  /** The loop `for (x = -offset % 100; x < extent; x += 100)`, collecting the drawn coordinates. */
  method GridLines(offset: real, extent: nat) returns (lines: seq<real>)
    ensures IsGrid(lines, offset, extent)
  {
    var start := JsRem(-offset);
    lines := [];
    var x := start;
    while x < extent as real
      invariant x == start + GridPitch * |lines| as real
      invariant forall i :: 0 <= i < |lines| ==> lines[i] == start + GridPitch * i as real
      invariant forall i :: 0 <= i < |lines| ==> lines[i] < extent as real
      decreases (extent as real - x).Floor
    {
      lines := lines + [x];
      x := x + GridPitch;
    }
  }

  /** The first line lies strictly within one pitch of the viewport edge. */
  lemma GridStartsNearEdge(lines: seq<real>, offset: real, extent: nat)
    requires IsGrid(lines, offset, extent) && lines != []
    ensures -GridPitch < lines[0] < GridPitch
  {
  }

  /** Consecutive lines are exactly one pitch apart. */
  lemma GridEvenlySpaced(lines: seq<real>, offset: real, extent: nat, i: nat)
    requires IsGrid(lines, offset, extent) && i + 1 < |lines|
    ensures lines[i + 1] - lines[i] == GridPitch
  {
  }

  /** No more lines are drawn than fit: fewer than extent / 100 + 2 of them. */
  lemma GridLineCount(lines: seq<real>, offset: real, extent: nat)
    requires IsGrid(lines, offset, extent)
    ensures GridPitch * (|lines| as real - 2.0) < extent as real
  {
    if lines != [] {
      assert lines[|lines| - 1] < extent as real;
    }
  }

  /** The grid predicate fixes the lines: for an offset and extent there is one grid. */
  lemma {:induction false} GridUnique(a: seq<real>, b: seq<real>, offset: real, extent: nat)
    requires IsGrid(a, offset, extent) && IsGrid(b, offset, extent)
    ensures a == b
  {
    assert |b| <= |a| by {
      if |b| > 0 {
        assert b[|b| - 1] < extent as real;
      }
    }
    assert |a| <= |b| by {
      if |a| > 0 {
        assert a[|a| - 1] < extent as real;
      }
    }
  }
}
