/** The game state as a value: window size, the three rectangles, the four
    velocities, the key flags, the ball speed and the score pair. */
module World {
  import opened Geometry

  /** Velocity slots: paddle 0, paddle 1, then the ball's x and y. */
  const BallVx: nat := 2
  const BallVy: nat := 3

  /** keys holds the four paddle key flags (d, f, k, j) and p3 the third
      player's two flags (up, down). */
  datatype State = State(
    w: nat, h: nat,
    rects: seq<Rect>,
    vels: seq<real>,
    keys: seq<bool>,
    p3: seq<bool>,
    speed: real,
    scores: seq<nat>)

  predicate WellFormed(s: State)
  {
    |s.rects| == 3 && |s.vels| == 4 && |s.keys| == 4 && |s.p3| == 2 && |s.scores| == 2
  }

  /** Paddles are 20 by 80 and the ball 10 by 10. */
  predicate Shapes(s: State)
    requires WellFormed(s)
  {
    (forall i :: 0 <= i < 2 ==>
       s.rects[i].w == PaddleWidth as real && s.rects[i].h == PaddleHeight as real) &&
    s.rects[Ball].w == BallDiameter as real && s.rects[Ball].h == BallDiameter as real
  }

  /** A paddle moves exactly when at least one of its two keys is held: it
      is at rest only when both are released. */
  predicate PaddleMovesIffKeyHeld(s: State)
    requires WellFormed(s)
  {
    (s.vels[0] != 0.0 <==> s.keys[0] || s.keys[1]) &&
    (s.vels[1] != 0.0 <==> s.keys[2] || s.keys[3])
  }

  /** In a window at least one paddle high both paddles lie inside it. */
  predicate PaddlesInWindow(s: State)
    requires WellFormed(s)
  {
    s.h >= PaddleHeight ==>
      forall i :: 0 <= i < 2 ==> 0.0 <= s.rects[i].y <= (s.h - PaddleHeight) as real
  }

  /** What every reachable state satisfies. */
  predicate Invariant(s: State)
  {
    WellFormed(s) && Shapes(s) && PaddleMovesIffKeyHeld(s) && PaddlesInWindow(s) &&
    s.speed >= InitBallSpeed
  }

  /** A freshly laid-out field satisfies the geometric parts of the invariant. */
  lemma LayoutGivesShapes(s: State)
    requires WellFormed(s) && s.rects == Layout(s.w, s.h)
    ensures Shapes(s) && PaddlesInWindow(s)
  {
    if s.h >= PaddleHeight {
      LayoutPaddlesInWindow(s.w, s.h);
    }
  }
}
