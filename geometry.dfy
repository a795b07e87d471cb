/** Rectangles, the compile-time constants of the game, the layout of the
    play field, the collision test and the bounce formula. */
module Geometry {

  const PaddleHeight: int := 80
  const PaddleWidth: int := 20
  const BallDiameter: int := 10
  const PaddleSpeed: real := 6.0
  const InitBallSpeed: real := 5.0
  const BallSpeedIncrease: real := 0.08
  const BallControlSpeed: real := 0.1

  /** Indices into the rectangle array: left paddle, right paddle, ball. */
  const Left: nat := 0
  const Right: nat := 1
  const Ball: nat := 2

  /** An axis-aligned rectangle in window coordinates (y grows downwards). */
  datatype Rect = Rect(x: real, y: real, w: real, h: real)

  /** The rectangle that the layout loop writes into slot i. */
  function LayoutEntry(w: nat, h: nat, i: nat): Rect
    requires i < 3
  {
    if i == Ball then
      Rect((w / 2 - BallDiameter / 2) as real, (h / 2 - BallDiameter / 2) as real,
           BallDiameter as real, BallDiameter as real)
    else
      Rect(((w - PaddleWidth) * i) as real, (h / 2 - PaddleHeight / 2) as real,
           PaddleWidth as real, PaddleHeight as real)
  }

  /** The three rectangles placed for a window of w by h pixels: two 20 by
      80 paddles, then the 10 by 10 ball; both paddles at the same height. */
  function Layout(w: nat, h: nat): (r: seq<Rect>)
    ensures |r| == 3
    ensures forall i :: 0 <= i < 2 ==> r[i].w == PaddleWidth as real && r[i].h == PaddleHeight as real
    ensures r[Ball].w == BallDiameter as real && r[Ball].h == BallDiameter as real
    ensures r[Left].y == r[Right].y
  {
    [LayoutEntry(w, h, 0), LayoutEntry(w, h, 1), LayoutEntry(w, h, 2)]
  }

  /** Paddle 0 sits on the left border and paddle 1's right edge on the right
      border; both paddles are centred vertically on h/2 and the ball is
      centred on (w/2, h/2), halves rounded down. */
  lemma LayoutPlacement(w: nat, h: nat)
    ensures Layout(w, h)[Left].x == 0.0
    ensures Layout(w, h)[Right].x + Layout(w, h)[Right].w == w as real
    ensures forall i :: 0 <= i < 2 ==>
      Layout(w, h)[i].w == PaddleWidth as real && Layout(w, h)[i].h == PaddleHeight as real &&
      Layout(w, h)[i].y + Layout(w, h)[i].h / 2.0 == (h / 2) as real
    ensures Layout(w, h)[Ball].w == Layout(w, h)[Ball].h == BallDiameter as real
    ensures Layout(w, h)[Ball].x + Layout(w, h)[Ball].w / 2.0 == (w / 2) as real
    ensures Layout(w, h)[Ball].y + Layout(w, h)[Ball].h / 2.0 == (h / 2) as real
  {
  }

  /** In a window at least one paddle high, both paddles lie inside it. */
  lemma LayoutPaddlesInWindow(w: nat, h: nat)
    requires h >= PaddleHeight
    ensures forall i :: 0 <= i < 2 ==>
      0.0 <= Layout(w, h)[i].y && Layout(w, h)[i].y + Layout(w, h)[i].h <= h as real
  {
  }

  /** In a window at least 50 pixels wide the ball starts between the two
      paddles and collides with neither; at widths 50 and 51 it touches a
      paddle edge, which the collision test does not count. */
  lemma LayoutServeIsClear(w: nat, h: nat)
    requires w >= 50
    ensures Layout(w, h)[Left].x + Layout(w, h)[Left].w <= Layout(w, h)[Ball].x
    ensures Layout(w, h)[Ball].x + Layout(w, h)[Ball].w <= Layout(w, h)[Right].x
    ensures !CheckCollision(Layout(w, h)[Left], Layout(w, h)[Ball])
    ensures !CheckCollision(Layout(w, h)[Right], Layout(w, h)[Ball])
  {
  }

  /** The overlap test. Its last comparison uses b's WIDTH where the height
      belongs; every call passes the square ball as b, where the two agree.
      Rectangles that lie apart side by side, or with a wholly above b,
      never collide. */
  function CheckCollision(a: Rect, b: Rect): (r: bool)
    ensures a.x + a.w <= b.x || b.x + b.w <= a.x ==> !r
    ensures a.y + a.h <= b.y ==> !r
  {
    var right := a.x + a.w > b.x;
    var left := a.x < b.x + b.w;
    var bottom := a.y + a.h > b.y;
    var top := a.y < b.y + b.w;
    right && left && bottom && top
  }

  /** (px, py) lies strictly inside r. */
  ghost predicate Inside(px: real, py: real, r: Rect)
  {
    r.x < px < r.x + r.w && r.y < py < r.y + r.h
  }

  /** a and b have an interior point in common. */
  ghost predicate SharePoint(a: Rect, b: Rect)
  {
    exists px, py :: Inside(px, py, a) && Inside(px, py, b)
  }

  /** For a proper rectangle a and a square b the test holds exactly when the
      two share an interior point: rectangles that only touch along an edge
      do not collide. */
  lemma CollisionIffCommonPoint(a: Rect, b: Rect)
    requires a.w > 0.0 && a.h > 0.0 && b.w > 0.0 && b.h == b.w
    ensures CheckCollision(a, b) <==> SharePoint(a, b)
  {
    if CheckCollision(a, b) {
      var lx := if a.x < b.x then b.x else a.x;
      var hx := if a.x + a.w < b.x + b.w then a.x + a.w else b.x + b.w;
      var ly := if a.y < b.y then b.y else a.y;
      var hy := if a.y + a.h < b.y + b.h then a.y + a.h else b.y + b.h;
      var px, py := (lx + hx) / 2.0, (ly + hy) / 2.0;
      assert Inside(px, py, a) && Inside(px, py, b);
    }
  }

  /** Between two squares the test is symmetric. */
  lemma CollisionSymmetricForSquares(a: Rect, b: Rect)
    requires a.w == a.h && b.w == b.h
    ensures CheckCollision(a, b) == CheckCollision(b, a)
  {
  }

  /** With a tall rectangle as b the width-based comparison misses a real
      overlap: a ball over the lower part of a paddle passed as b. */
  lemma CollisionMissesTallSecondArgument()
    ensures var ball, paddle := Rect(0.0, 50.0, 10.0, 10.0), Rect(0.0, 0.0, 20.0, 80.0);
      SharePoint(ball, paddle) && !CheckCollision(ball, paddle)
  {
    var ball, paddle := Rect(0.0, 50.0, 10.0, 10.0), Rect(0.0, 0.0, 20.0, 80.0);
    assert Inside(5.0, 55.0, ball) && Inside(5.0, 55.0, paddle);
  }

  /** The vertical distance from the ball's centre up to the paddle's
      centre: positive exactly when the ball's centre is above the paddle's,
      zero exactly when the two are level. */
  function HitOffset(paddle: Rect, ball: Rect): (d: real)
    ensures d > 0.0 <==> ball.y + BallDiameter as real / 2.0 < paddle.y + PaddleHeight as real / 2.0
    ensures d == 0.0 <==> ball.y + BallDiameter as real / 2.0 == paddle.y + PaddleHeight as real / 2.0
  {
    (paddle.y + PaddleHeight as real / 2.0) - (ball.y + BallDiameter as real / 2.0)
  }

  /** The new vertical velocity after a paddle hit: a ball hitting above the
      paddle's centre leaves upwards, one below leaves downwards, one at the
      centre leaves level; the speed is one unit per half paddle height. */
  function BounceVy(seed: real): (vy: real)
    ensures vy < 0.0 <==> seed > 0.0
    ensures vy > 0.0 <==> seed < 0.0
  {
    -seed / (PaddleHeight as real / 2.0)
  }

  /** The new horizontal velocity: root stands for the square root, so the
      magnitude is what remains of length once vy is taken out. With a
      non-negative root the ball leaves along xdir. */
  function BounceVx(xdir: int, vy: real, length: real, root: real -> real): (vx: real)
    ensures root(length * length - vy * vy) >= 0.0 ==> (xdir > 0 ==> vx >= 0.0) && (xdir < 0 ==> vx <= 0.0)
  {
    var m := root(length * length - vy * vy);
    assert m >= 0.0 && xdir > 0 ==> m * xdir as real >= 0.0;
    assert m >= 0.0 && xdir < 0 ==> m * xdir as real <= 0.0;
    m * xdir as real
  }

  /** When root is a square root at the argument it is given, the bounce keeps
      the speed: vx^2 + vy^2 == length^2, and vx points along xdir. */
  lemma BounceKeepsSpeed(xdir: int, vy: real, length: real, root: real -> real)
    requires xdir == 1 || xdir == -1
    requires root(length * length - vy * vy) >= 0.0
    requires root(length * length - vy * vy) * root(length * length - vy * vy) == length * length - vy * vy
    ensures var vx := BounceVx(xdir, vy, length, root);
      vx * vx + vy * vy == length * length && (xdir == 1 ==> vx >= 0.0) && (xdir == -1 ==> vx <= 0.0)
  {
    var m := root(length * length - vy * vy);
    var vx := BounceVx(xdir, vy, length, root);
    assert vx == m || vx == -m;
    assert vx * vx == m * m;
  }

  /** A hit between a paddle and the ball is never more than 45 pixels off
      centre, so the bounce's vertical speed stays below 9/8 and, at any
      speed from the initial one up, the square root's argument is positive. */
  lemma BounceNeverExceedsSpeed(paddle: Rect, ball: Rect, speed: real)
    requires paddle.h == PaddleHeight as real
    requires ball.w == BallDiameter as real && ball.h == BallDiameter as real
    requires CheckCollision(paddle, ball)
    requires speed >= InitBallSpeed
    ensures -45.0 < HitOffset(paddle, ball) < 45.0
    ensures -1.125 < BounceVy(HitOffset(paddle, ball)) < 1.125
    ensures BounceVy(HitOffset(paddle, ball)) * BounceVy(HitOffset(paddle, ball)) < speed * speed
  {
    var vy := BounceVy(HitOffset(paddle, ball));
    assert -1.125 < vy < 1.125;
    if vy >= 0.0 {
      assert vy * vy <= 2.0 * vy;
    } else {
      assert vy * vy <= -2.0 * vy;
    }
    assert speed * speed >= 5.0 * speed;
  }
}
