/** The game loop's state and what one frame does with it: handle the
    frame's events, run one simulation step, and after a goal count the
    point and reset the field. The Game class holds the state in arrays and
    updates it in place; each of its methods is proved against the pure
    definitions in this module and in Controls and Physics. */
module Pong {
  import opened Geometry
  import opened World
  import opened Controls
  import opened Physics

  /** The events the loop reacts to; Resized carries the new output size. */
  datatype Event = QuitEvent | Resized(nw: nat, nh: nat) | KeyPressed(k: Key) | KeyReleased(k: Key) | OtherEvent

  /** The state when the loop starts, for a window of w by h pixels. */
  function Initial(w: nat, h: nat): (s: State)
    ensures Invariant(s)
  {
    var s := State(w, h, Layout(w, h), [0.0, 0.0, InitBallSpeed, 0.0],
                   [false, false, false, false], [false, false], InitBallSpeed, [0, 0]);
    LayoutGivesShapes(s);
    s
  }

  /** The window was resized: new size, field laid out again. Velocities,
      flags, speed and scores are kept. */
  function Resize(s: State, nw: nat, nh: nat): (r: State)
    requires WellFormed(s)
    ensures WellFormed(r)
    ensures r.(w := s.w, h := s.h, rects := s.rects) == s
    ensures r.w == nw && r.h == nh
    ensures r.rects == Layout(nw, nh)
  {
    s.(w := nw, h := nh, rects := Layout(nw, nh))
  }

  /** What the loop does after a step returning result: on a goal (1 or 2)
      the other player scores and the field, velocities, paddle flags and
      speed are reset; the third player's flags are left alone. */
  function Reset(s: State, result: int): (r: State)
    requires WellFormed(s)
    ensures WellFormed(r)
    ensures r.w == s.w && r.h == s.h && r.p3 == s.p3
    ensures r.scores[0] >= s.scores[0] && r.scores[1] >= s.scores[1]
    ensures r.scores[0] + r.scores[1] == s.scores[0] + s.scores[1] + (if 0 < result < 3 then 1 else 0)
  {
    if 0 < result < 3 then
      s.(scores := s.scores[2 - result := s.scores[2 - result] + 1],
         rects := Layout(s.w, s.h),
         vels := [0.0, 0.0, InitBallSpeed, 0.0],
         keys := [false, false, false, false],
         speed := InitBallSpeed)
    else s
  }

  /** Whether an event asks the loop to stop. */
  predicate QuitRequested(e: Event)
  {
    e == QuitEvent || e == KeyPressed(Q)
  }

  /** One event; no event touches the scores or the ball speed. */
  function ApplyEvent(s: State, e: Event): (r: State)
    requires WellFormed(s)
    ensures WellFormed(r)
    ensures r.scores == s.scores && r.speed == s.speed
  {
    match e
    case QuitEvent => s
    case Resized(nw, nh) => Resize(s, nw, nh)
    case KeyPressed(k) => Press(s, k)
    case KeyReleased(k) => Release(s, k)
    case OtherEvent => s
  }

  /** The events of one frame, handled in order. However many there are,
      they leave the scores and the ball speed as they were. */
  function ApplyEvents(s: State, es: seq<Event>): (r: State)
    requires WellFormed(s)
    ensures WellFormed(r)
    ensures r.scores == s.scores && r.speed == s.speed
    decreases |es|
  {
    if es == [] then s else ApplyEvent(ApplyEvents(s, es[..|es| - 1]), es[|es| - 1])
  }

  /** One frame: events, step, reset after a goal. Scores never drop, and
      the speed either keeps growing or is back at its initial value. */
  function FrameState(s: State, es: seq<Event>, root: real -> real): (r: State)
    requires WellFormed(s)
    ensures WellFormed(r)
    ensures r.scores[0] >= s.scores[0] && r.scores[1] >= s.scores[1]
    ensures r.speed >= s.speed || r.speed == InitBallSpeed
  {
    var st := Advance(ApplyEvents(s, es), root);
    Reset(st.state, st.result)
  }

  /** Result 1 (left wall) scores for the right player, 2 (right wall) for
      the left one, and either way the total grows by one; the field is laid
      out again, the ball served at the initial speed straight to the right,
      both paddles stopped with their key flags clear, and the window size
      and third player's flags kept. Any other result changes nothing. */
  lemma ResetEffect(s: State, result: int)
    requires WellFormed(s)
    ensures var r := Reset(s, result);
      (result == 1 ==> r.scores == [s.scores[0], s.scores[1] + 1]) &&
      (result == 2 ==> r.scores == [s.scores[0] + 1, s.scores[1]]) &&
      (0 < result < 3 ==>
         r.rects == Layout(s.w, s.h) && r.vels == [0.0, 0.0, InitBallSpeed, 0.0] &&
         r.keys == [false, false, false, false] && r.speed == InitBallSpeed &&
         r.p3 == s.p3 && r.w == s.w && r.h == s.h) &&
      (!(0 < result < 3) ==> r == s)
  {
  }

  lemma ResetKeepsInvariant(s: State, result: int)
    requires Invariant(s)
    ensures Invariant(Reset(s, result))
  {
    if 0 < result < 3 {
      LayoutGivesShapes(Reset(s, result));
    }
  }

  lemma ApplyEventKeepsInvariant(s: State, e: Event)
    requires Invariant(s)
    ensures Invariant(ApplyEvent(s, e))
  {
    match e
    case Resized(nw, nh) => LayoutGivesShapes(Resize(s, nw, nh));
    case KeyPressed(k) => KeysKeepInvariant(s, k);
    case KeyReleased(k) => KeysKeepInvariant(s, k);
    case _ =>
  }

  lemma {:induction false} ApplyEventsKeepInvariant(s: State, es: seq<Event>)
    requires Invariant(s)
    ensures Invariant(ApplyEvents(s, es))
    decreases |es|
  {
    if es != [] {
      ApplyEventsKeepInvariant(s, es[..|es| - 1]);
      ApplyEventKeepsInvariant(ApplyEvents(s, es[..|es| - 1]), es[|es| - 1]);
    }
  }

  /** Every frame keeps the invariant: a paddle moves exactly while one of
      its keys is held, shapes are fixed, paddles stay in a tall enough
      window and the speed never drops below its initial value. */
  lemma FrameKeepsInvariant(s: State, es: seq<Event>, root: real -> real)
    requires Invariant(s)
    ensures Invariant(FrameState(s, es, root))
  {
    ApplyEventsKeepInvariant(s, es);
    var st := Advance(ApplyEvents(s, es), root);
    AdvanceKeepsInvariant(ApplyEvents(s, es), root);
    ResetKeepsInvariant(st.state, st.result);
  }

  /** A frame adds a point to exactly one player when its step scores, and
      no points otherwise; scores never decrease. */
  lemma FrameScores(s: State, es: seq<Event>, root: real -> real)
    requires WellFormed(s)
    ensures var r := FrameState(s, es, root); var g := Advance(ApplyEvents(s, es), root).result;
      r.scores[0] >= s.scores[0] && r.scores[1] >= s.scores[1] &&
      r.scores[0] + r.scores[1] == s.scores[0] + s.scores[1] + (if g != 0 then 1 else 0)
  {
    var t := ApplyEvents(s, es);
    GoalEffect(t, root);
    PaddleEffect(t, root);
  }

  /** The input of one frame: its events and the square-root stand-in. */
  datatype FrameInput = FrameInput(events: seq<Event>, root: real -> real)

  /** The loop run over one frame input after another. */
  function Play(s: State, ins: seq<FrameInput>): (r: State)
    requires WellFormed(s)
    ensures WellFormed(r)
    decreases |ins|
  {
    if ins == [] then s else Play(FrameState(s, ins[0].events, ins[0].root), ins[1..])
  }

  /** The step a frame runs, after its events. */
  function FrameStep(s: State, i: FrameInput): Stepped
    requires WellFormed(s)
  {
    Advance(ApplyEvents(s, i.events), i.root)
  }

  /** No frame of the run scores, so the field is never reset. */
  predicate NoGoal(s: State, ins: seq<FrameInput>)
    requires WellFormed(s)
    decreases |ins|
  {
    ins == [] ||
    (FrameStep(s, ins[0]).result == 0 && NoGoal(FrameState(s, ins[0].events, ins[0].root), ins[1..]))
  }

  /** How many frames of the run bounce the ball off a paddle. */
  function FrameBounces(s: State, ins: seq<FrameInput>): nat
    requires WellFormed(s)
    decreases |ins|
  {
    if ins == [] then 0
    else
      var b := BallPhase(ApplyEvents(s, ins[0].events));
      (if HitsLeft(b) || HitsRight(b) then 1 else 0) +
      FrameBounces(FrameState(s, ins[0].events, ins[0].root), ins[1..])
  }

  /** Over frames without a goal the speed is the starting speed plus one
      increment per paddle bounce, whatever events the frames handle. */
  lemma {:induction false} RallyOverFrames(s: State, ins: seq<FrameInput>)
    requires WellFormed(s) && NoGoal(s, ins)
    ensures Play(s, ins).speed == s.speed + FrameBounces(s, ins) as real * BallSpeedIncrease
    decreases |ins|
  {
    if ins != [] {
      var t := ApplyEvents(s, ins[0].events);
      BounceEffect(t, ins[0].root);
      RallyOverFrames(FrameState(s, ins[0].events, ins[0].root), ins[1..]);
    }
  }

  /** The game's state, updated in place by the loop. */
  class Game {
    var w: nat
    var h: nat
    const rects: array<Rect>
    const vels: array<real>
    const keys: array<bool>
    const p3: array<bool>
    var speed: real
    const scores: array<nat>

    /** The state as a value. */
    ghost function Snapshot(): State
      reads this, rects, vels, keys, p3, scores
    {
      State(w, h, rects[..], vels[..], keys[..], p3[..], speed, scores[..])
    }

    ghost predicate Valid()
      reads this, rects, vels, keys, p3, scores
    {
      keys != p3 && Invariant(Snapshot())
    }

    /** The loop's local state at start-up, for a window of width by height. */
    constructor (width: nat, height: nat)
      ensures Valid() && Snapshot() == Initial(width, height)
    {
      w, h := width, height;
      rects := new Rect[3](_ => Rect(0.0, 0.0, 0.0, 0.0));
      vels := new real[4](i => if i == 2 then InitBallSpeed else 0.0);
      keys := new bool[4](_ => false);
      p3 := new bool[2](_ => false);
      scores := new nat[2](_ => 0);
      speed := InitBallSpeed;
      new;
      assert vels[..] == [0.0, 0.0, InitBallSpeed, 0.0];
      assert keys[..] == [false, false, false, false];
      assert p3[..] == [false, false];
      assert scores[..] == [0, 0];
      RecalcRects();
      assert Snapshot() == Initial(width, height);
    }

    /** Lay the field out for the current window size, slot by slot. */
    method RecalcRects()
      requires rects.Length == 3
      modifies rects
      ensures rects[..] == Layout(w, h)
    {
      for i := 0 to 3
        invariant forall j :: 0 <= j < i ==> rects[j] == LayoutEntry(w, h, j)
      {
        rects[i] := LayoutEntry(w, h, i);
      }
    }

    /** The resize handler: take the new output size, then lay out again. */
    method HandleResize(nw: nat, nh: nat)
      requires Valid()
      modifies this, rects
      ensures Valid() && Snapshot() == Resize(old(Snapshot()), nw, nh)
    {
      w, h := nw, nh;
      RecalcRects();
      LayoutGivesShapes(Snapshot());
    }

    /** The key-down handler. */
    method HandleKeyPress(k: Key) returns (code: int)
      requires Valid()
      modifies vels, keys, p3
      ensures Valid() && Snapshot() == Press(old(Snapshot()), k)
      ensures code == PressCode(k)
    {
      ghost var s := Snapshot();
      KeysKeepInvariant(s, k);
      match k {
        case D => vels[0] := -PaddleSpeed; keys[0] := true;
        case F => vels[0] := PaddleSpeed; keys[1] := true;
        case K => vels[1] := -PaddleSpeed; keys[2] := true;
        case J => vels[1] := PaddleSpeed; keys[3] := true;
        case Up => p3[0] := true;
        case Down => p3[1] := true;
        case Q => return 1;
        case Other =>
      }
      return 0;
    }

    /** The key-up handler for the paddle keys. */
    method UpdatePaddleVels(k: Key) returns (code: int)
      requires Valid()
      modifies vels, keys
      ensures Valid() && Snapshot() == ReleasePaddle(old(Snapshot()), k)
      ensures code == 0
    {
      KeysKeepInvariant(Snapshot(), k);
      match k {
        case D => keys[0] := false; if !keys[1] { vels[0] := 0.0; }
        case F => keys[1] := false; if !keys[0] { vels[0] := 0.0; }
        case K => keys[2] := false; if !keys[3] { vels[1] := 0.0; }
        case J => keys[3] := false; if !keys[2] { vels[1] := 0.0; }
        case _ =>
      }
      return 0;
    }

    /** The key-up handler for the third player's keys. */
    method UpdateP3Flips(k: Key) returns (code: int)
      requires Valid()
      modifies p3
      ensures Valid() && Snapshot() == ReleaseP3(old(Snapshot()), k)
      ensures code == 0
    {
      KeysKeepInvariant(Snapshot(), k);
      match k {
        case Up => p3[0] := false;
        case Down => p3[1] := false;
        case _ =>
      }
      return 0;
    }

    /** A key-up event: both release handlers, paddle keys first. */
    method HandleKeyRelease(k: Key)
      requires Valid()
      modifies vels, keys, p3
      ensures Valid() && Snapshot() == Release(old(Snapshot()), k)
    {
      var _ := UpdatePaddleVels(k);
      var _ := UpdateP3Flips(k);
    }

    /** The third player's nudge of the ball's vertical velocity. */
    method ApplyBallControl()
      requires Valid()
      modifies vels
      ensures Valid() && Snapshot() == Nudge(old(Snapshot()))
    {
      if p3[0] {
        vels[3] := vels[3] - BallControlSpeed;
      } else if p3[1] {
        vels[3] := vels[3] + BallControlSpeed;
      }
    }

    /** The ball moves by its velocity. */
    method MoveBallRect()
      requires Valid()
      modifies rects
      ensures Valid() && Snapshot() == MoveBall(old(Snapshot()))
    {
      rects[2] := rects[2].(x := rects[2].x + vels[2]);
      rects[2] := rects[2].(y := rects[2].y + vels[3]);
    }

    /** The ball's vertical velocity flips at the top and bottom walls. */
    method BounceOffWalls()
      requires Valid()
      modifies vels
      ensures Valid() && Snapshot() == WallBounce(old(Snapshot()))
    {
      if rects[2].y <= 0.0 || rects[2].y >= (h - BallDiameter) as real {
        vels[3] := vels[3] * -1.0;
      }
    }

    /** At most one paddle bounce, which ramps the speed. */
    method BounceOffPaddles(root: real -> real)
      requires Valid()
      modifies this, vels
      ensures Valid() && Snapshot() == PaddleBounce(old(Snapshot()), root)
    {
      if vels[2] < 0.0 && CheckCollision(rects[0], rects[2]) {
        var vy := BounceVy(HitOffset(rects[0], rects[2]));
        vels[3] := vy;
        vels[2] := BounceVx(1, vy, speed, root);
        speed := speed + BallSpeedIncrease;
      } else if CheckCollision(rects[1], rects[2]) {
        var vy := BounceVy(HitOffset(rects[1], rects[2]));
        vels[3] := vy;
        vels[2] := BounceVx(-1, vy, speed, root);
        speed := speed + BallSpeedIncrease;
      }
    }

    /** Both paddles move by their velocities, then each is clamped. */
    method MovePaddleRects()
      requires Valid()
      modifies rects
      ensures Valid() && Snapshot() == MovePaddles(old(Snapshot()))
    {
      ghost var c := Snapshot();
      rects[0] := rects[0].(y := rects[0].y + vels[0]);
      rects[1] := rects[1].(y := rects[1].y + vels[1]);
      for i := 0 to 2
        invariant rects[2] == c.rects[Ball]
        invariant forall j :: 0 <= j < i ==> rects[j] == MovedPaddle(c, j)
        invariant forall j :: i <= j < 2 ==> rects[j] == c.rects[j].(y := c.rects[j].y + c.vels[j])
      {
        if rects[i].y <= 0.0 || rects[i].y >= (h - PaddleHeight) as real {
          if vels[i] < 0.0 {
            rects[i] := rects[i].(y := 0.0);
          } else if vels[i] > 0.0 {
            rects[i] := rects[i].(y := (h - PaddleHeight) as real);
          }
        }
      }
      assert rects[..] == MovePaddles(c).rects;
    }

    /** One simulation step; root stands for the square root. Returns 1 when
        the ball reached the left wall, 2 the right wall, otherwise 0. */
    method UpdateRects(root: real -> real) returns (result: int)
      requires Valid()
      modifies this, rects, vels
      ensures Valid()
      ensures Snapshot() == Advance(old(Snapshot()), root).state
      ensures result == Advance(old(Snapshot()), root).result
    {
      ghost var s := Snapshot();
      AdvanceKeepsInvariant(s, root);
      ApplyBallControl();
      MoveBallRect();
      BounceOffWalls();
      BounceOffPaddles(root);
      if rects[2].x <= 0.0 {
        return 1;
      }
      if rects[2].x >= (w - BallDiameter) as real {
        return 2;
      }
      MovePaddleRects();
      return 0;
    }

    /** The loop's reset block after a step that returned result. */
    method ResetAfterStep(result: int)
      requires Valid()
      modifies this, rects, vels, keys, scores
      ensures Valid() && Snapshot() == Reset(old(Snapshot()), result)
    {
      ghost var s := Snapshot();
      ResetKeepsInvariant(s, result);
      if result > 0 && result < 3 {
        scores[2 - result] := scores[2 - result] + 1;
        assert scores[..] == s.scores[2 - result := s.scores[2 - result] + 1];
        RecalcRects();
        vels[0] := 0.0;
        vels[1] := 0.0;
        vels[2] := InitBallSpeed;
        vels[3] := 0.0;
        keys[0] := false;
        keys[1] := false;
        keys[2] := false;
        keys[3] := false;
        speed := InitBallSpeed;
        assert vels[..] == [0.0, 0.0, InitBallSpeed, 0.0];
        assert keys[..] == [false, false, false, false];
        assert Snapshot() == Reset(s, result);
      }
    }

    /** The event loop of one frame: handle the events in order. Returns
        whether one of them asked to quit; the remaining events still run. */
    method HandleEvents(events: seq<Event>) returns (quit: bool)
      requires Valid()
      modifies this, rects, vels, keys, p3
      ensures Valid() && Snapshot() == ApplyEvents(old(Snapshot()), events)
      ensures quit <==> exists i :: 0 <= i < |events| && QuitRequested(events[i])
    {
      ghost var s := Snapshot();
      quit := false;
      for i := 0 to |events|
        invariant Valid()
        invariant Snapshot() == ApplyEvents(s, events[..i])
        invariant quit <==> exists j :: 0 <= j < i && QuitRequested(events[j])
      {
        assert events[..i + 1][..i] == events[..i];
        match events[i] {
          case QuitEvent =>
            quit := true;
          case Resized(nw, nh) =>
            HandleResize(nw, nh);
          case KeyPressed(k) =>
            var code := HandleKeyPress(k);
            if code == 1 {
              quit := true;
            }
          case KeyReleased(k) =>
            HandleKeyRelease(k);
          case OtherEvent =>
        }
      }
      assert events[..|events|] == events;
    }

    /** One pass of the loop body: handle the frame's events, step, and
        reset after a goal. Returns whether an event asked to quit. */
    method Frame(events: seq<Event>, root: real -> real) returns (quit: bool)
      requires Valid()
      modifies this, rects, vels, keys, p3, scores
      ensures Valid() && Snapshot() == FrameState(old(Snapshot()), events, root)
      ensures quit <==> exists i :: 0 <= i < |events| && QuitRequested(events[i])
    {
      quit := HandleEvents(events);
      var result := UpdateRects(root);
      ResetAfterStep(result);
    }
  }
}
