/** One simulation step, phase by phase: the third player's nudge, ball
    integration, the wall bounce, at most one paddle bounce, goal detection
    and paddle integration with clamping. */
module Physics {
  import opened Geometry
  import opened World

  /** The third player's nudge: up takes precedence over down. Only the
      ball's vertical velocity changes. */
  function Nudge(s: State): (r: State)
    requires WellFormed(s)
    ensures WellFormed(r)
    ensures r.(vels := s.vels) == s && r.vels[..BallVy] == s.vels[..BallVy]
  {
    var vy := s.vels[BallVy];
    s.(vels := s.vels[BallVy := if s.p3[0] then vy - BallControlSpeed
                                else if s.p3[1] then vy + BallControlSpeed
                                else vy])
  }

  /** The ball moves by its velocity; it keeps its size and the paddles do
      not move. */
  function MoveBall(s: State): (r: State)
    requires WellFormed(s)
    ensures WellFormed(r)
    ensures r.(rects := s.rects) == s && r.rects[..Ball] == s.rects[..Ball]
    ensures r.rects[Ball].w == s.rects[Ball].w && r.rects[Ball].h == s.rects[Ball].h
  {
    var b := s.rects[Ball];
    s.(rects := s.rects[Ball := b.(x := b.x + s.vels[BallVx]).(y := b.y + s.vels[BallVy])])
  }

  /** The ball's top edge is on or above the top wall, or on or below the
      line where its bottom edge meets the bottom wall. */
  predicate AtWall(y: real, h: nat)
  {
    y <= 0.0 || y >= (h - BallDiameter) as real
  }

  /** At a wall the ball's vertical velocity is reversed; nothing else
      changes. */
  function WallBounce(s: State): (r: State)
    requires WellFormed(s)
    ensures WellFormed(r)
    ensures r.(vels := s.vels) == s && r.vels[..BallVy] == s.vels[..BallVy]
    ensures r.vels[BallVy] == s.vels[BallVy] || r.vels[BallVy] == -s.vels[BallVy]
  {
    if AtWall(s.rects[Ball].y, s.h) then s.(vels := s.vels[BallVy := -s.vels[BallVy]]) else s
  }

  /** The first three phases. */
  function BallPhase(s: State): (r: State)
    requires WellFormed(s)
    ensures WellFormed(r)
  {
    WallBounce(MoveBall(Nudge(s)))
  }

  /** The left paddle can be hit only while the ball moves left. */
  predicate HitsLeft(s: State)
    requires WellFormed(s)
  {
    s.vels[BallVx] < 0.0 && CheckCollision(s.rects[Left], s.rects[Ball])
  }

  predicate HitsRight(s: State)
    requires WellFormed(s)
  {
    CheckCollision(s.rects[Right], s.rects[Ball])
  }

  /** A bounce off paddle p sending the ball along xdir. The ball leaves
      upwards exactly when its centre is above the paddle's; only the ball's
      velocity and the speed change, and the speed ramps by the increment. */
  function Deflect(s: State, p: nat, xdir: int, root: real -> real): (r: State)
    requires WellFormed(s) && p < 2
    ensures WellFormed(r)
    ensures r.(vels := s.vels, speed := s.speed) == s && r.vels[..BallVx] == s.vels[..BallVx]
    ensures r.speed == s.speed + BallSpeedIncrease
    ensures r.vels[BallVy] < 0.0 <==>
      s.rects[Ball].y + BallDiameter as real / 2.0 < s.rects[p].y + PaddleHeight as real / 2.0
  {
    var vy := BounceVy(HitOffset(s.rects[p], s.rects[Ball]));
    s.(vels := s.vels[BallVy := vy][BallVx := BounceVx(xdir, vy, s.speed, root)],
       speed := s.speed + BallSpeedIncrease)
  }

  /** At most one paddle bounce; only the ball's velocity and the speed can
      change, and the speed either stays or ramps by the increment. */
  function PaddleBounce(s: State, root: real -> real): (r: State)
    requires WellFormed(s)
    ensures WellFormed(r)
    ensures r.(vels := s.vels, speed := s.speed) == s && r.vels[..BallVx] == s.vels[..BallVx]
    ensures r.speed == s.speed || r.speed == s.speed + BallSpeedIncrease
  {
    if HitsLeft(s) then Deflect(s, Left, 1, root)
    else if HitsRight(s) then Deflect(s, Right, -1, root)
    else s
  }

  /** 1 when the ball reached the left wall, 2 the right wall, else 0: the
      result is 0 exactly when the ball lies strictly between the goal
      lines. */
  function GoalOf(s: State): (g: int)
    requires WellFormed(s)
    ensures 0 <= g <= 2
    ensures g == 0 <==> 0.0 < s.rects[Ball].x < (s.w - BallDiameter) as real
  {
    if s.rects[Ball].x <= 0.0 then 1
    else if s.rects[Ball].x >= (s.w - BallDiameter) as real then 2
    else 0
  }

  /** A paddle that moved to y with velocity v is snapped to the border it
      was travelling towards when it is on or beyond either border. */
  function Clamp(y: real, v: real, h: nat): (r: real)
    ensures r == y || (v < 0.0 && r == 0.0) || (v > 0.0 && r == (h - PaddleHeight) as real)
    ensures v == 0.0 || 0.0 < y < (h - PaddleHeight) as real ==> r == y
    ensures (y <= 0.0 || y >= (h - PaddleHeight) as real) && v < 0.0 ==> r == 0.0
    ensures (y <= 0.0 || y >= (h - PaddleHeight) as real) && v > 0.0 ==> r == (h - PaddleHeight) as real
  {
    if y <= 0.0 || y >= (h - PaddleHeight) as real then
      if v < 0.0 then 0.0
      else if v > 0.0 then (h - PaddleHeight) as real
      else y
    else y
  }

  /** Paddle i after moving by its velocity and being clamped. */
  function MovedPaddle(s: State, i: nat): Rect
    requires WellFormed(s) && i < 2
  {
    s.rects[i].(y := Clamp(s.rects[i].y + s.vels[i], s.vels[i], s.h))
  }

  /** Both paddles move and are clamped; they move only vertically, and the
      ball and everything else stay as they are. */
  function MovePaddles(s: State): (r: State)
    requires WellFormed(s)
    ensures WellFormed(r)
    ensures r.(rects := s.rects) == s && r.rects[Ball] == s.rects[Ball]
    ensures forall i :: 0 <= i < 2 ==>
      r.rects[i].x == s.rects[i].x && r.rects[i].w == s.rects[i].w && r.rects[i].h == s.rects[i].h
  {
    s.(rects := [MovedPaddle(s, Left), MovedPaddle(s, Right), s.rects[Ball]])
  }

  /** The state after a step together with the step's return code. */
  datatype Stepped = Stepped(state: State, result: int)

  /** The whole step. A goal ends it before the paddles move. The result is
      0, 1 or 2; the speed never drops; the window, the flags, the paddle
      velocities and the scores are untouched. */
  function Advance(s: State, root: real -> real): (r: Stepped)
    requires WellFormed(s)
    ensures WellFormed(r.state)
    ensures 0 <= r.result <= 2 && r.state.speed >= s.speed
    ensures r.state.w == s.w && r.state.h == s.h && r.state.keys == s.keys && r.state.p3 == s.p3
    ensures r.state.vels[..BallVx] == s.vels[..BallVx] && r.state.scores == s.scores
  {
    var b := PaddleBounce(BallPhase(s), root);
    var g := GoalOf(b);
    if g != 0 then Stepped(b, g) else Stepped(MovePaddles(b), 0)
  }

  /** Where the ball is after the step: it moves by (vx, vy + nudge). */
  function BallAfterMove(s: State): Rect
    requires WellFormed(s)
  {
    MoveBall(Nudge(s)).rects[Ball]
  }

  /** The nudge changes only the ball's vertical velocity, by at most the
      control speed; with both flags set the up flag wins, and with neither
      set nothing changes. */
  lemma NudgeEffect(s: State)
    requires WellFormed(s)
    ensures Nudge(s).(vels := s.vels) == s
    ensures Nudge(s).vels[..BallVy] == s.vels[..BallVy]
    ensures -BallControlSpeed <= Nudge(s).vels[BallVy] - s.vels[BallVy] <= BallControlSpeed
    ensures s.p3[0] ==> Nudge(s).vels[BallVy] == s.vels[BallVy] - BallControlSpeed
    ensures !s.p3[0] && s.p3[1] ==> Nudge(s).vels[BallVy] == s.vels[BallVy] + BallControlSpeed
    ensures !s.p3[0] && !s.p3[1] ==> Nudge(s) == s
  {
  }

  /** After the first three phases the ball has moved by (vx, nudged vy), and
      the vertical velocity is the nudged one, negated exactly when the ball
      is at the top or bottom wall. */
  lemma BallPhaseEffect(s: State)
    requires WellFormed(s)
    ensures var b := BallPhase(s); var n := Nudge(s);
      b.rects[Ball] == s.rects[Ball].(x := s.rects[Ball].x + s.vels[BallVx],
                                      y := s.rects[Ball].y + n.vels[BallVy]) &&
      b.rects[Left] == s.rects[Left] && b.rects[Right] == s.rects[Right] &&
      b.vels[BallVx] == s.vels[BallVx] &&
      b.vels[BallVy] == (if AtWall(b.rects[Ball].y, s.h) then -n.vels[BallVy] else n.vels[BallVy]) &&
      b.(vels := s.vels, rects := s.rects) == s
  {
  }

  /** At most one paddle bounce per step: off the left paddle only while the
      ball moves left, otherwise off the right one. A bounce sets the ball's
      vertical velocity from the hit offset and ramps the speed by exactly
      the increment; without one the ball's velocity is what the first
      phases left and the speed is unchanged. */
  lemma BounceEffect(s: State, root: real -> real)
    requires WellFormed(s)
    ensures var b := BallPhase(s); var r := Advance(s, root).state;
      var ball := BallAfterMove(s);
      (HitsLeft(b) ==>
         r.vels[BallVy] == BounceVy(HitOffset(s.rects[Left], ball)) &&
         r.vels[BallVx] == BounceVx(1, r.vels[BallVy], s.speed, root)) &&
      (!HitsLeft(b) && HitsRight(b) ==>
         r.vels[BallVy] == BounceVy(HitOffset(s.rects[Right], ball)) &&
         r.vels[BallVx] == BounceVx(-1, r.vels[BallVy], s.speed, root)) &&
      (!HitsLeft(b) && !HitsRight(b) ==>
         r.vels[BallVx] == b.vels[BallVx] && r.vels[BallVy] == b.vels[BallVy]) &&
      (r.speed == if HitsLeft(b) || HitsRight(b) then s.speed + BallSpeedIncrease else s.speed)
  {
  }

  /** The result is 1 exactly when the moved ball is at or past the left
      wall, 2 when it is not but is at or past the right wall, else 0; a
      scoring step leaves the paddles where they were. */
  lemma GoalEffect(s: State, root: real -> real)
    requires WellFormed(s)
    ensures var st := Advance(s, root); var x := s.rects[Ball].x + s.vels[BallVx];
      (st.result == 1 <==> x <= 0.0) &&
      (st.result == 2 <==> 0.0 < x && x >= (s.w - BallDiameter) as real) &&
      (st.result == 0 || st.result == 1 || st.result == 2) &&
      st.state.rects[Ball].x == x &&
      (st.result != 0 ==> st.state.rects[Left] == s.rects[Left] && st.state.rects[Right] == s.rects[Right])
  {
  }

  /** Paddles only ever move vertically; on a step without a goal each one
      moves by its velocity and is clamped, and the rest of the state is
      what the ball phases and the bounce left. */
  lemma PaddleEffect(s: State, root: real -> real)
    requires WellFormed(s)
    ensures var st := Advance(s, root);
      (forall i :: 0 <= i < 2 ==>
         st.state.rects[i].x == s.rects[i].x && st.state.rects[i].w == s.rects[i].w &&
         st.state.rects[i].h == s.rects[i].h) &&
      (st.result == 0 ==> forall i :: 0 <= i < 2 ==>
         st.state.rects[i].y == Clamp(s.rects[i].y + s.vels[i], s.vels[i], s.h)) &&
      st.state.vels[..BallVx] == s.vels[..BallVx] &&
      st.state.(rects := s.rects, vels := s.vels, speed := s.speed) == s
  {
    var b := PaddleBounce(BallPhase(s), root);
    assert b.rects[Left] == s.rects[Left] && b.rects[Right] == s.rects[Right];
    assert b.vels[..BallVx] == s.vels[..BallVx];
  }

  /** A paddle inside the window stays inside it, whatever its velocity. */
  lemma ClampKeepsInWindow(y: real, v: real, h: nat)
    requires h >= PaddleHeight
    requires 0.0 <= y <= (h - PaddleHeight) as real
    ensures 0.0 <= Clamp(y + v, v, h) <= (h - PaddleHeight) as real
  {
  }

  /** A paddle at the top keeps being held there while it moves up, and is
      free to move down as soon as its velocity turns positive. */
  lemma ClampAtTop(v: real, h: nat)
    ensures v < 0.0 ==> Clamp(0.0 + v, v, h) == 0.0
    ensures 0.0 < v < (h - PaddleHeight) as real ==> Clamp(0.0 + v, v, h) == v
  {
  }

  /** Each phase on its own keeps the invariant, so every intermediate state
      of a step satisfies it. */
  lemma PhasesKeepInvariant(s: State, root: real -> real)
    requires Invariant(s)
    ensures Invariant(Nudge(s)) && Invariant(MoveBall(s)) && Invariant(WallBounce(s))
    ensures Invariant(PaddleBounce(s, root)) && Invariant(MovePaddles(s))
  {
    var m := MovePaddles(s);
    if s.h >= PaddleHeight {
      forall i | 0 <= i < 2
        ensures 0.0 <= m.rects[i].y <= (s.h - PaddleHeight) as real
      {
        ClampKeepsInWindow(s.rects[i].y, s.vels[i], s.h);
      }
    }
  }

  /** The snap goes by the direction of travel, not by the border that was
      crossed: a paddle past the bottom border that moves up lands on the
      top border, and in a window lower than a paddle a paddle moving down
      is snapped upwards, to the negative y of h - 80. */
  lemma ClampByDirection()
    ensures Clamp(100.0 + -PaddleSpeed, -PaddleSpeed, 100) == 0.0
    ensures var y := Layout(0, 60)[Left].y;
      y == -10.0 && Clamp(y + PaddleSpeed, PaddleSpeed, 60) == -20.0
  {
  }

  /** Every step keeps the invariant. */
  lemma AdvanceKeepsInvariant(s: State, root: real -> real)
    requires Invariant(s)
    ensures Invariant(Advance(s, root).state)
  {
    var st := Advance(s, root);
    PaddleEffect(s, root);
    BounceEffect(s, root);
    if s.h >= PaddleHeight && st.result == 0 {
      forall i | 0 <= i < 2
        ensures 0.0 <= st.state.rects[i].y <= (s.h - PaddleHeight) as real
      {
        ClampKeepsInWindow(s.rects[i].y, s.vels[i], s.h);
      }
    }
  }

  /** In every reachable state a bounce's square-root argument is positive:
      the source's NaN case cannot arise. */
  lemma BounceArgumentPositive(s: State)
    requires Invariant(s)
    ensures var b := BallPhase(s); var ball := BallAfterMove(s);
      (HitsLeft(b) ==> BounceVy(HitOffset(s.rects[Left], ball)) * BounceVy(HitOffset(s.rects[Left], ball))
                         < s.speed * s.speed) &&
      (HitsRight(b) ==> BounceVy(HitOffset(s.rects[Right], ball)) * BounceVy(HitOffset(s.rects[Right], ball))
                          < s.speed * s.speed)
  {
    var b := BallPhase(s);
    BallPhaseEffect(s);
    if HitsLeft(b) {
      BounceNeverExceedsSpeed(s.rects[Left], b.rects[Ball], s.speed);
    }
    if HitsRight(b) {
      BounceNeverExceedsSpeed(s.rects[Right], b.rects[Ball], s.speed);
    }
  }
}
