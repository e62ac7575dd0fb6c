/**
 * The player entity of src/game/entities/Player.ts: the per-frame grounding,
 * jump-count reset, horizontal movement, jump and animation rules.
 *
 * The arcade physics engine is not modelled. What it leaves in the player's
 * body at the start of a frame (position, vertical velocity and the two
 * "down" contact flags) is the `Body` argument of `Update`; the cursor keys
 * are the `Keys` argument.
 */
module Entities {
  import opened Wrappers

  /** Vertical velocity given by a successful jump (upwards is negative). */
  const JumpVelocity: int := -450

  /** The body state the physics step produced for this frame. */
  datatype Body = Body(x: int, y: int, vy: int, blockedDown: bool, touchingDown: bool)

  /**
   * The cursor keys in one frame: `upDown` is the held state of the up key,
   * `upJustDown` its rising edge (`Phaser.Input.Keyboard.JustDown`).
   */
  datatype Keys = Keys(leftDown: bool, rightDown: bool, upDown: bool, upJustDown: bool)

  /** The animations the player plays. */
  datatype Anim = DefaultWalk | DefaultIdle | DefaultJump | DefaultFall {
    function Key(): string {
      match this
      case DefaultWalk => "default-walk"
      case DefaultIdle => "default-idle"
      case DefaultJump => "default-jump"
      case DefaultFall => "default-fall"
    }
  }

  /**
   * The observable state of a player. `anim` is the animation last started
   * with `play`; `None` before the first frame, when the sprite only shows
   * frame 0 of its texture.
   */
  datatype PlayerState = PlayerState(
    x: int, y: int, vx: int, vy: int, flipX: bool,
    jumpCount: int, maxJumps: int, speed: int,
    isOnGround: bool, anim: Option<Anim>)

  /** The jump-count invariant `0 <= jumpCount <= maxJumps`. */
  predicate JumpBound(s: PlayerState) {
    0 <= s.jumpCount <= s.maxJumps
  }

  /** `jump()`: allowed while fewer than `maxJumps` jumps were used, a no-op otherwise. */
  function TryJump(s: PlayerState): (t: PlayerState)
    ensures JumpBound(s) ==> JumpBound(t)
    ensures t == s || (t.jumpCount == s.jumpCount + 1 && t.vy == JumpVelocity)
    ensures t == s.(vy := t.vy, jumpCount := t.jumpCount)
  {
    if s.jumpCount < s.maxJumps then s.(vy := JumpVelocity, jumpCount := s.jumpCount + 1) else s
  }

  /** `update()`, statement group by statement group, as a function of the state before the frame. */
  function Step(s: PlayerState, body: Body, keys: Keys): (t: PlayerState)
    // the position comes from the physics body; grounding is the contact disjunction
    ensures t.x == body.x && t.y == body.y && t.isOnGround == (body.blockedDown || body.touchingDown)
    // after any frame some animation is playing
    ensures t.anim.Some?
    // the counter grows by at most one jump per frame, from its value after the reset
    ensures t.jumpCount == (if t.isOnGround then 0 else s.jumpCount) || t.jumpCount == (if t.isOnGround then 0 else s.jumpCount) + 1
    ensures t.maxJumps == s.maxJumps && t.speed == s.speed
  {
    // grounding and reset
    var grounded := body.blockedDown || body.touchingDown;
    var s1 := s.(x := body.x, y := body.y, vy := body.vy, isOnGround := grounded,
                 jumpCount := if grounded then 0 else s.jumpCount);
    // horizontal movement; the grounded animations are started here
    var s2 :=
      if keys.leftDown then
        s1.(vx := -s1.speed, flipX := true, anim := if grounded then Some(DefaultWalk) else s1.anim)
      else if keys.rightDown then
        s1.(vx := s1.speed, flipX := false, anim := if grounded then Some(DefaultWalk) else s1.anim)
      else
        s1.(vx := 0, anim := if grounded then Some(DefaultIdle) else s1.anim);
    // jump on the rising edge of the up key
    var s3 := if keys.upJustDown then TryJump(s2) else s2;
    // airborne animations, from the velocity after the jump
    if !grounded then s3.(anim := Some(if s3.vy < 0 then DefaultJump else DefaultFall)) else s3
  }

  /** The animation as a table over grounded, horizontal intent and the sign of the vertical velocity. */
  function AnimationFor(grounded: bool, moving: bool, vy: int): Anim {
    if grounded then (if moving then DefaultWalk else DefaultIdle)
    else if vy < 0 then DefaultJump
    else DefaultFall
  }

  /** Whether the jump of this frame succeeds: up just pressed and a jump left after the reset. */
  predicate JumpSucceeds(s: PlayerState, body: Body, keys: Keys) {
    var count := if body.blockedDown || body.touchingDown then 0 else s.jumpCount;
    keys.upJustDown && count < s.maxJumps
  }

  /** `jump()` succeeds exactly when a jump is left; then it sets the impulse and counts one jump. */
  lemma JumpGate(s: PlayerState)
    ensures var t := TryJump(s);
      if s.jumpCount < s.maxJumps then
        t.vy == JumpVelocity && t.jumpCount == s.jumpCount + 1 && t == s.(vy := t.vy, jumpCount := t.jumpCount)
      else
        t == s
  {
  }

  /** Every frame keeps `0 <= jumpCount <= maxJumps`, and never changes `maxJumps` or `speed`. */
  lemma StepKeepsJumpBound(s: PlayerState, body: Body, keys: Keys)
    requires JumpBound(s)
    ensures var t := Step(s, body, keys);
      JumpBound(t) && t.maxJumps == s.maxJumps && t.speed == s.speed
  {
  }

  /**
   * `isOnGround` is exactly the disjunction of the two contact flags, and when it
   * holds the count is reset before the jump: a grounded jump always succeeds
   * (given one jump at all) and leaves exactly one jump used.
   */
  lemma GroundedResetPrecedesJump(s: PlayerState, body: Body, keys: Keys)
    requires s.maxJumps >= 1
    ensures var t := Step(s, body, keys);
      && t.isOnGround == (body.blockedDown || body.touchingDown)
      && (t.isOnGround && keys.upJustDown ==> t.jumpCount == 1 && t.vy == JumpVelocity)
      && (t.isOnGround && !keys.upJustDown ==> t.jumpCount == 0 && t.vy == body.vy)
  {
  }

  /** The jump counter and vertical velocity change exactly as `JumpSucceeds` says. */
  lemma JumpEffect(s: PlayerState, body: Body, keys: Keys)
    ensures var t := Step(s, body, keys);
      var count := if body.blockedDown || body.touchingDown then 0 else s.jumpCount;
      && (JumpSucceeds(s, body, keys) ==> t.jumpCount == count + 1 && t.vy == JumpVelocity)
      && (!JumpSucceeds(s, body, keys) ==> t.jumpCount == count && t.vy == body.vy)
  {
  }

  /** Only the rising edge triggers a jump: the held state of the up key changes nothing. */
  lemma HeldUpDoesNotJump(s: PlayerState, body: Body, keys: Keys, held: bool)
    ensures Step(s, body, keys.(upDown := held)) == Step(s, body, keys)
    ensures !keys.upJustDown ==> !JumpSucceeds(s, body, keys) && Step(s, body, keys).vy == body.vy
  {
  }

  /** Left wins over right; with neither key held the player stops and keeps its facing. */
  lemma HorizontalRule(s: PlayerState, body: Body, keys: Keys)
    ensures var t := Step(s, body, keys);
      && (keys.leftDown ==> t.vx == -s.speed && t.flipX)
      && (!keys.leftDown && keys.rightDown ==> t.vx == s.speed && !t.flipX)
      && (!keys.leftDown && !keys.rightDown ==> t.vx == 0 && t.flipX == s.flipX)
  {
  }

  /** The animation after a frame depends only on the new state and the horizontal intent. */
  lemma AnimationIsFunctionOfState(s: PlayerState, body: Body, keys: Keys)
    ensures var t := Step(s, body, keys);
      t.anim == Some(AnimationFor(t.isOnGround, keys.leftDown || keys.rightDown, t.vy))
  {
  }

  /** The keys the table's animations are played under. */
  lemma AnimationKeys(grounded: bool, moving: bool, vy: int)
    ensures AnimationFor(grounded, moving, vy).Key() ==
      if grounded then (if moving then "default-walk" else "default-idle")
      else if vy < 0 then "default-jump" else "default-fall"
  {
  }

  /** One frame of input. */
  datatype Frame = Frame(body: Body, keys: Keys)

  predicate Airborne(f: Frame) {
    !f.body.blockedDown && !f.body.touchingDown
  }

  /** The state after a sequence of frames. */
  function Run(s: PlayerState, frames: seq<Frame>): PlayerState
    decreases |frames|
  {
    if frames == [] then s else Run(Step(s, frames[0].body, frames[0].keys), frames[1..])
  }

  /** The number of successful jumps during a sequence of frames. */
  function Jumps(s: PlayerState, frames: seq<Frame>): nat
    decreases |frames|
  {
    if frames == [] then 0
    else
      (if JumpSucceeds(s, frames[0].body, frames[0].keys) then 1 else 0)
      + Jumps(Step(s, frames[0].body, frames[0].keys), frames[1..])
  }

  /** While airborne the counter is never reset, so it counts every jump and caps them. */
  lemma {:induction false} AirborneJumpsCounted(s: PlayerState, frames: seq<Frame>)
    requires JumpBound(s)
    requires forall i :: 0 <= i < |frames| ==> Airborne(frames[i])
    ensures Run(s, frames).jumpCount == s.jumpCount + Jumps(s, frames)
    ensures Jumps(s, frames) <= s.maxJumps - s.jumpCount
    decreases |frames|
  {
    if frames != [] {
      var f := frames[0];
      var t := Step(s, f.body, f.keys);
      StepKeepsJumpBound(s, f.body, f.keys);
      JumpEffect(s, f.body, f.keys);
      assert forall i :: 0 <= i < |frames[1..]| ==> Airborne(frames[1..][i]) by {
        forall i | 0 <= i < |frames[1..]| ensures Airborne(frames[1..][i]) {
          assert frames[1..][i] == frames[i + 1];
        }
      }
      AirborneJumpsCounted(t, frames[1..]);
    }
  }

  /**
   * Between a grounded frame and the next one, at most `maxJumps` jumps succeed in total
   * (two for the player, whose `maxJumps` is 2).
   */
  lemma AtMostMaxJumpsBetweenLandings(s: PlayerState, landing: Frame, air: seq<Frame>)
    requires JumpBound(s)
    requires !Airborne(landing)
    requires forall i :: 0 <= i < |air| ==> Airborne(air[i])
    ensures Jumps(s, [landing] + air) <= s.maxJumps
  {
    var frames := [landing] + air;
    assert frames[0] == landing && frames[1..] == air;
    var t := Step(s, landing.body, landing.keys);
    StepKeepsJumpBound(s, landing.body, landing.keys);
    JumpEffect(s, landing.body, landing.keys);
    AirborneJumpsCounted(t, air);
  }

  /** With `maxJumps == 2` a grounded jump and one jump in the air succeed; a third press is ignored. */
  lemma DoubleJumpThenNoOp(s: PlayerState, b1: Body, b2: Body, b3: Body, k: Keys)
    requires s.maxJumps == 2
    requires b1.blockedDown || b1.touchingDown
    requires !b2.blockedDown && !b2.touchingDown && !b3.blockedDown && !b3.touchingDown
    requires k.upJustDown
    ensures var t1 := Step(s, b1, k);
      var t2 := Step(t1, b2, k);
      var t3 := Step(t2, b3, k);
      && t1.jumpCount == 1 && t2.jumpCount == 2 && t2.vy == JumpVelocity
      && t3.jumpCount == 2 && t3.vy == b3.vy
  {
  }

  /** The player sprite of Player.ts, with the fields `update()` and `jump()` overwrite. */
  class Player {
    var x: int
    var y: int
    var vx: int
    var vy: int
    var flipX: bool
    var jumpCount: int
    const maxJumps: int := 2
    const speed: int := 300
    var isOnGround: bool
    var anim: Option<Anim>

    function State(): PlayerState
      reads this
    {
      PlayerState(x, y, vx, vy, flipX, jumpCount, maxJumps, speed, isOnGround, anim)
    }

    /** The object invariant: the jump-count bound. */
    predicate Valid()
      reads this
    {
      JumpBound(State())
    }

    /** A new player at `(x0, y0)`, at rest, with no jump used. */
    constructor (x0: int, y0: int)
      ensures Valid()
      ensures State() == PlayerState(x0, y0, 0, 0, false, 0, 2, 300, false, None)
    {
      x, y := x0, y0;
      vx, vy := 0, 0;
      flipX := false;
      jumpCount := 0;
      isOnGround := false;
      anim := None;
    }

    /** `jump()`. */
    method Jump()
      modifies this
      ensures State() == TryJump(old(State()))
    {
      if jumpCount < maxJumps {
        vy := JumpVelocity;
        jumpCount := jumpCount + 1;
      }
    }

    /** `update()`: one frame of the movement and jump rules. */
    method Update(body: Body, keys: Keys)
      requires Valid()
      modifies this
      ensures Valid()
      ensures State() == Step(old(State()), body, keys)
      ensures isOnGround == (body.blockedDown || body.touchingDown)
      ensures anim == Some(AnimationFor(isOnGround, keys.leftDown || keys.rightDown, vy))
    {
      ghost var s := State();
      x, y, vy := body.x, body.y, body.vy;
      isOnGround := body.blockedDown || body.touchingDown;
      if isOnGround {
        jumpCount := 0;
      }
      ghost var s1 := State();

      if keys.leftDown {
        vx := -speed;
        flipX := true;
        if isOnGround {
          anim := Some(DefaultWalk);
        }
      } else if keys.rightDown {
        vx := speed;
        flipX := false;
        if isOnGround {
          anim := Some(DefaultWalk);
        }
      } else {
        vx := 0;
        if isOnGround {
          anim := Some(DefaultIdle);
        }
      }

      ghost var s2 := State();
      assert s2 == s1.(vx := s2.vx, flipX := s2.flipX, anim := s2.anim);
      if keys.upJustDown {
        Jump();
      }
      assert State() == if keys.upJustDown then TryJump(s2) else s2;

      if !isOnGround {
        if vy < 0 {
          anim := Some(DefaultJump);
        } else {
          anim := Some(DefaultFall);
        }
      }
      AnimationIsFunctionOfState(s, body, keys);
      StepKeepsJumpBound(s, body, keys);
    }

    /** The sprite's `setPosition(x, y)`. */
    method SetPosition(x1: int, y1: int)
      modifies this
      ensures State() == old(State()).(x := x1, y := y1)
    {
      x, y := x1, y1;
    }

    /** The sprite's `setVelocity(vx, vy)`. */
    method SetVelocity(vx1: int, vy1: int)
      modifies this
      ensures State() == old(State()).(vx := vx1, vy := vy1)
    {
      vx, vy := vx1, vy1;
    }
  }
}
