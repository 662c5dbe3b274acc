/** The player: a two-state jump machine (grounded, airborne) on integer
    height and velocity, integrated position-first with unit gravity. */
module Players {
  import opened Bodies
  import opened Keyboard

  /** The velocity a jump starts with. */
  const LaunchVelocity: int := 15

  /** How far above its rest height a jump rises. */
  const PeakHeight: int := 120

  /** Updates from the launch to the landing. */
  const FlightTicks: nat := 31

  /** The fields `Player.update` changes. */
  datatype PlayerState = PlayerState(y: int, velocityY: int, jumping: bool)

  /** The fields it never changes: the object identity, `center.x`, `size`, `startingY`. */
  datatype PlayerFixed = PlayerFixed(id: nat, x: int, size: Size, startingY: int)

  /** The player as a body of the world. */
  function AsBody(pf: PlayerFixed, s: PlayerState): Body {
    Body(pf.id, PlayerKind, Point(pf.x as real, s.y as real), pf.size)
  }

  /** One `Player.update`: move by the velocity; while airborne lose one unit of
      velocity and land (snap to `startingY`) once at or below it; then start a
      jump if the key is held and the player is on the ground. */
  function Step(s: PlayerState, startingY: int, keyDown: bool): PlayerState {
    var y := s.y - s.velocityY;
    var landed :=
      if !s.jumping then PlayerState(y, s.velocityY, false)
      else if y >= startingY then PlayerState(startingY, 0, false)
      else PlayerState(y, s.velocityY - 1, true);
    if keyDown && !landed.jumping then PlayerState(landed.y, LaunchVelocity, true)
    else landed
  }

  /** On the ground the player rests at `startingY` with no velocity; in the air it is at or above it. */
  predicate AtRest(s: PlayerState, startingY: int) {
    (!s.jumping ==> s.velocityY == 0 && s.y == startingY) &&
    (s.jumping ==> s.y <= startingY)
  }

  /** Airborne, height and velocity lie on the launch parabola. */
  predicate OnArc(s: PlayerState, startingY: int) {
    s.jumping ==>
      2 * (startingY - s.y) == (LaunchVelocity - s.velocityY) * (LaunchVelocity + 1 + s.velocityY)
  }

  predicate Sound(s: PlayerState, startingY: int) {
    AtRest(s, startingY) && OnArc(s, startingY)
  }

  /** The state after a run of updates, one key reading per update. */
  function Fly(s: PlayerState, startingY: int, keys: seq<bool>): PlayerState
    decreases |keys|
  {
    if keys == [] then s
    else Step(Fly(s, startingY, keys[..|keys| - 1]), startingY, keys[|keys| - 1])
  }

  /** Each update keeps the player sound, whatever the key does. */
  lemma StepKeepsSound(s: PlayerState, startingY: int, keyDown: bool)
    requires Sound(s, startingY)
    ensures Sound(Step(s, startingY, keyDown), startingY)
  {
    var v := s.velocityY;
    if s.jumping {
      assert (LaunchVelocity - v) * (LaunchVelocity + 1 + v) + 2 * v
          == (LaunchVelocity - (v - 1)) * (LaunchVelocity + 1 + (v - 1));
    }
  }

  /** No double jump: the key makes a difference exactly when the player is on
      the ground after the landing check. */
  lemma KeyMattersOnlyOnGround(s: PlayerState, startingY: int)
    ensures Step(s, startingY, true) == Step(s, startingY, false) <==>
      s.jumping && s.y - s.velocityY < startingY
  {
  }

  /** A grounded player stays put without the key and launches with it. */
  lemma GroundedStep(s: PlayerState, startingY: int)
    requires !s.jumping && AtRest(s, startingY)
    ensures Step(s, startingY, false) == s
    ensures Step(s, startingY, true) == PlayerState(startingY, LaunchVelocity, true)
  {
  }

  /** Airborne, a sound player is never more than `PeakHeight` above its rest
      height, and its velocity stays within the launch range. */
  lemma {:induction false} AirborneBounds(s: PlayerState, startingY: int)
    requires Sound(s, startingY) && s.jumping
    ensures startingY - PeakHeight <= s.y <= startingY
    ensures -(LaunchVelocity + 1) <= s.velocityY <= LaunchVelocity
  {
    var v := s.velocityY;
    assert (LaunchVelocity - v) * (LaunchVelocity + 1 + v) == 240 - (v * v + v);
    SquarePlusSelf(v);
  }

  /** `v * v + v` is never negative and exceeds 240 outside `-16 .. 15`. */
  lemma SquarePlusSelf(v: int)
    ensures v * v + v >= 0
    ensures v >= 16 ==> v * v + v > 240
    ensures v <= -17 ==> v * v + v > 240
  {
    if v >= 16 {
      assert v * v >= 16 * v;
    } else if v <= -17 {
      assert v * v == (-v) * (-v);
      assert (-v) * (-v) >= 17 * (-v);
    } else if v < 0 {
      assert v * v == (-v) * (-v);
      assert (-v) * (-v) >= (-v) * 1;
    } else {
      assert v * v >= 0;
    }
  }

  /** The state `k` updates after launch, for any key readings, while airborne:
      the velocity has dropped by `k` and the height gained is `k*(31-k)/2`. */
  lemma {:induction false} FlightClosedForm(startingY: int, keys: seq<bool>)
    requires |keys| < FlightTicks
    ensures var r := Fly(PlayerState(startingY, LaunchVelocity, true), startingY, keys);
      r.jumping && r.velocityY == LaunchVelocity - |keys| &&
      2 * (startingY - r.y) == |keys| * (FlightTicks - |keys|)
    decreases |keys|
  {
    var k := |keys|;
    if k > 0 {
      FlightClosedForm(startingY, keys[..k - 1]);
      ArcStep(k - 1);
    }
  }

  /** The arithmetic of one airborne update along the arc. */
  lemma ArcStep(j: int)
    requires 0 <= j < 30
    ensures j * (31 - j) + 2 * (15 - j) == (j + 1) * (31 - (j + 1))
    ensures (j + 1) * (31 - (j + 1)) >= 1
  {
    assert (j + 1) * (30 - j) >= 1 * (30 - j);
  }

  /** Launched with the key released at the end, the player lands on exactly
      the 31st update, at rest on `startingY`; having risen exactly `PeakHeight`
      after 15 updates. If the key is held on that 31st update it jumps again at once. */
  lemma FlightLands(startingY: int, keys: seq<bool>)
    requires |keys| == FlightTicks
    ensures Fly(PlayerState(startingY, LaunchVelocity, true), startingY, keys) ==
      if keys[FlightTicks - 1] then PlayerState(startingY, LaunchVelocity, true)
      else PlayerState(startingY, 0, false)
    ensures Fly(PlayerState(startingY, LaunchVelocity, true), startingY, keys[..15]).y == startingY - PeakHeight
    ensures forall k :: 0 < k < FlightTicks ==>
      Fly(PlayerState(startingY, LaunchVelocity, true), startingY, keys[..k]).jumping
  {
    var launch := PlayerState(startingY, LaunchVelocity, true);
    FlightClosedForm(startingY, keys[..FlightTicks - 1]);
    assert keys[..FlightTicks - 1] == keys[..|keys| - 1];
    assert 30 * (31 - 30) == 30;
    FlightClosedForm(startingY, keys[..15]);
    assert 15 * (31 - 15) == 240;
    forall k | 0 < k < FlightTicks
      ensures Fly(launch, startingY, keys[..k]).jumping
    {
      FlightClosedForm(startingY, keys[..k]);
    }
  }

  class Player {
    const id: nat
    const x: int
    const size: Size
    const startingY: int
    var y: int
    var velocityY: int
    var jumping: bool

    /** Created at rest: `startingY` is the creation height. */
    constructor (id: nat, x: int, y: int, size: Size)
      ensures Fixed() == PlayerFixed(id, x, size, y)
      ensures State() == PlayerState(y, 0, false)
      ensures Valid()
    {
      this.id := id;
      this.x := x;
      this.size := size;
      this.y := y;
      this.startingY := y;
      this.velocityY := 0;
      this.jumping := false;
    }

    function Fixed(): PlayerFixed {
      PlayerFixed(id, x, size, startingY)
    }

    function State(): PlayerState
      reads this
    {
      PlayerState(y, velocityY, jumping)
    }

    ghost predicate Valid()
      reads this
    {
      Sound(State(), startingY)
    }

    /** `Player.update`, reading the S key from `keyboard`. */
    method Update(keyboard: Keyboarder)
      modifies this
      ensures State() == Step(old(State()), startingY, old(keyboard.IsDown(KeyS)))
      ensures old(Valid()) ==> Valid()
    {
      ghost var before := State();
      y := y - velocityY;
      if jumping {
        velocityY := velocityY - 1;
        if y >= startingY {
          y := startingY;
          velocityY := 0;
          jumping := false;
        }
      }
      if keyboard.IsDown(KeyS) && !jumping {
        jumping := true;
        velocityY := LaunchVelocity;
      }
      if Sound(before, startingY) {
        StepKeepsSound(before, startingY, old(keyboard.IsDown(KeyS)));
      }
    }
  }
}
