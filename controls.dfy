/** The keyboard state machine: what a key going down or coming up does to
    the velocities, the paddle key flags and the third player's flags. */
module Controls {
  import opened Geometry
  import opened World

  /** The keys the game reacts to; every other key code is Other. */
  datatype Key = D | F | K | J | Up | Down | Q | Other

  /** d and f steer paddle 0 up and down, k and j paddle 1. */
  predicate IsPaddleKey(k: Key)
  {
    k == D || k == F || k == K || k == J
  }

  /** The paddle a paddle key steers. */
  function PaddleOf(k: Key): nat
    requires IsPaddleKey(k)
  {
    if k == D || k == F then Left else Right
  }

  /** The flag slot of a paddle key. */
  function SlotOf(k: Key): nat
    requires IsPaddleKey(k)
  {
    match k
    case D => 0
    case F => 1
    case K => 2
    case J => 3
  }

  /** The slot of the other key of the same paddle. */
  function OppositeSlot(slot: nat): nat
  {
    if slot % 2 == 0 then slot + 1 else slot - 1
  }

  /** The velocity a paddle key asks for: upwards (negative) for d and k. */
  function Heading(k: Key): real
    requires IsPaddleKey(k)
  {
    if k == D || k == K then -PaddleSpeed else PaddleSpeed
  }

  /** The third player's flag slot: 0 for up, 1 for down. */
  function P3Slot(k: Key): nat
    requires k == Up || k == Down
  {
    if k == Up then 0 else 1
  }

  /** Key down. It touches only the paddle velocities and the flags, and it
      never lowers a flag. */
  function Press(s: State, k: Key): (r: State)
    requires WellFormed(s)
    ensures WellFormed(r)
    ensures r.(vels := s.vels, keys := s.keys, p3 := s.p3) == s
    ensures r.vels[BallVx..] == s.vels[BallVx..]
    ensures forall i :: 0 <= i < 4 && s.keys[i] ==> r.keys[i]
    ensures forall i :: 0 <= i < 2 && s.p3[i] ==> r.p3[i]
  {
    match k
    case D => s.(vels := s.vels[0 := -PaddleSpeed], keys := s.keys[0 := true])
    case F => s.(vels := s.vels[0 := PaddleSpeed], keys := s.keys[1 := true])
    case K => s.(vels := s.vels[1 := -PaddleSpeed], keys := s.keys[2 := true])
    case J => s.(vels := s.vels[1 := PaddleSpeed], keys := s.keys[3 := true])
    case Up => s.(p3 := s.p3[0 := true])
    case Down => s.(p3 := s.p3[1 := true])
    case Q => s
    case Other => s
  }

  /** The key-down handler's return code: 1 asks the loop to quit. */
  function PressCode(k: Key): (code: int)
    ensures code == 1 <==> k == Q
    ensures code == 0 <==> k != Q
  {
    if k == Q then 1 else 0
  }

  /** Key up, as far as the paddle keys are concerned. It touches only the
      paddle velocities and key flags, never raises a flag and never sets a
      velocity other than 0. */
  function ReleasePaddle(s: State, k: Key): (r: State)
    requires WellFormed(s)
    ensures WellFormed(r)
    ensures r.(vels := s.vels, keys := s.keys) == s
    ensures r.vels[BallVx..] == s.vels[BallVx..]
    ensures forall i :: 0 <= i < 4 && r.keys[i] ==> s.keys[i]
    ensures forall i :: 0 <= i < 2 ==> r.vels[i] == s.vels[i] || r.vels[i] == 0.0
  {
    match k
    case D => s.(keys := s.keys[0 := false], vels := if !s.keys[1] then s.vels[0 := 0.0] else s.vels)
    case F => s.(keys := s.keys[1 := false], vels := if !s.keys[0] then s.vels[0 := 0.0] else s.vels)
    case K => s.(keys := s.keys[2 := false], vels := if !s.keys[3] then s.vels[1 := 0.0] else s.vels)
    case J => s.(keys := s.keys[3 := false], vels := if !s.keys[2] then s.vels[1 := 0.0] else s.vels)
    case _ => s
  }

  /** Key up, as far as the third player's keys are concerned. It touches
      only the third player's flags and never raises one. */
  function ReleaseP3(s: State, k: Key): (r: State)
    requires WellFormed(s)
    ensures WellFormed(r)
    ensures r.(p3 := s.p3) == s
    ensures forall i :: 0 <= i < 2 && r.p3[i] ==> s.p3[i]
  {
    match k
    case Up => s.(p3 := s.p3[0 := false])
    case Down => s.(p3 := s.p3[1 := false])
    case _ => s
  }

  /** A key-up event runs both release handlers, paddle keys first. It
      touches only the paddle velocities and the flags, and never raises a
      flag. */
  function Release(s: State, k: Key): (r: State)
    requires WellFormed(s)
    ensures WellFormed(r)
    ensures r.(vels := s.vels, keys := s.keys, p3 := s.p3) == s
    ensures r.vels[BallVx..] == s.vels[BallVx..]
    ensures forall i :: 0 <= i < 4 && r.keys[i] ==> s.keys[i]
    ensures forall i :: 0 <= i < 2 && r.p3[i] ==> s.p3[i]
  {
    ReleaseP3(ReleasePaddle(s, k), k)
  }

  /** A paddle key going down sets its paddle's velocity to the key's heading
      and raises its flag; nothing else changes, in particular neither the
      ball's velocity nor the third player's flags. */
  lemma PressPaddleKey(s: State, k: Key)
    requires WellFormed(s) && IsPaddleKey(k)
    ensures Press(s, k).vels == s.vels[PaddleOf(k) := Heading(k)]
    ensures Press(s, k).keys == s.keys[SlotOf(k) := true]
    ensures Press(s, k).(vels := s.vels, keys := s.keys) == s
    ensures Press(s, k).vels[BallVx] == s.vels[BallVx] && Press(s, k).vels[BallVy] == s.vels[BallVy]
  {
  }

  /** Up or Down going down raises only the matching third-player flag; q and
      every other key change nothing. */
  lemma PressOtherKeys(s: State, k: Key)
    requires WellFormed(s) && !IsPaddleKey(k)
    ensures k == Up || k == Down ==> Press(s, k) == s.(p3 := s.p3[P3Slot(k) := true])
    ensures k == Q || k == Other ==> Press(s, k) == s
  {
  }

  /** Releasing a paddle key clears its flag; its paddle stops exactly when
      the opposite key's flag is already clear and otherwise keeps its
      velocity; nothing else changes. */
  lemma ReleasePaddleKey(s: State, k: Key)
    requires WellFormed(s) && IsPaddleKey(k)
    ensures Release(s, k).keys == s.keys[SlotOf(k) := false]
    ensures Release(s, k).vels ==
      if s.keys[OppositeSlot(SlotOf(k))] then s.vels else s.vels[PaddleOf(k) := 0.0]
    ensures Release(s, k).(vels := s.vels, keys := s.keys) == s
  {
  }

  /** Releasing Up or Down clears only the matching flag; other keys coming
      up change nothing. */
  lemma ReleaseOtherKeys(s: State, k: Key)
    requires WellFormed(s) && !IsPaddleKey(k)
    ensures k == Up || k == Down ==> Release(s, k) == s.(p3 := s.p3[P3Slot(k) := false])
    ensures k != Up && k != Down ==> Release(s, k) == s
  {
  }

  /** Key-down and both key-up handlers keep the invariant; in particular a
      paddle keeps moving while one of its keys is held and stops once both
      are released. */
  lemma KeysKeepInvariant(s: State, k: Key)
    requires Invariant(s)
    ensures Invariant(Press(s, k))
    ensures Invariant(ReleasePaddle(s, k))
    ensures Invariant(ReleaseP3(s, k))
    ensures Invariant(Release(s, k))
  {
  }

  /** Holding d, pressing f and releasing f leaves paddle 0 moving down
      although only its up key is held: the release keeps the released
      key's velocity rather than taking the held key's. */
  lemma ReleaseKeepsStaleHeading(s: State)
    requires WellFormed(s)
    ensures var r := Release(Press(Press(s, D), F), F);
      r.keys[0] && !r.keys[1] && r.vels[0] == PaddleSpeed
  {
  }
}
