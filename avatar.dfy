/** `pepse.world.Avatar`: the player's energy, the on-ground flag and the per-frame
    movement and jump logic. Key states arrive as booleans; physics, gravity and animations
    are the engine's. */
module Avatars {
  import opened JavaLang
  import opened Engine

  const AVATAR_TAG: string := "avatar"
  const TRUNK_TAG: string := "trunk"
  const GROUND_TAG: string := "ground"
  const AVATAR_VELOCITY: real := 430.0
  const AVATAR_JUMP_VELOCITY: real := -600.0
  /** The gravity component's downward acceleration, in pixels per second squared. */
  const GRAVITY: real := 600.0
  const MAX_ENERGY: real := 100.0
  const MOVEMENT_ENERGY: real := 0.5
  const JUMP_ENERGY: real := 10.0
  const MINIMUM_FRAMES_TO_REGENERATE_ENERGY: int := 50
  /** A contact counts as standing on something when its normal's y is below this. */
  const GROUND_MIN: real := -0.5
  /** The initial value of both frame counters. */
  const INITIAL_FRAMES: int := 100

  /** `Math.max(0, Math.min(MAX_ENERGY, e))`. */
  function Clamp(e: real): (r: real)
    ensures 0.0 <= r <= MAX_ENERGY
    ensures 0.0 <= e <= MAX_ENERGY ==> r == e
    ensures e < 0.0 ==> r == 0.0
    ensures e > MAX_ENERGY ==> r == MAX_ENERGY
  {
    if MAX_ENERGY < e then MAX_ENERGY else if e < 0.0 then 0.0 else e
  }

  /** The three keys the logic polls in one frame. */
  datatype Keys = Keys(right: bool, left: bool, jump: bool)

  /** The fields `updateAvatarLogic` reads and writes. */
  datatype AvatarState = AvatarState(
    energy: real,
    onGround: bool,
    jumpWasPressedLastFrame: bool,
    wasOnGroundLastFrame: bool,
    jumpKeyHeldWithInsufficientEnergy: bool,
    framesSinceJump: Int32,
    framesSinceLastSuccessfulJump: Int32)

  /** What one frame of `updateAvatarLogic` produces: the new fields, the velocity it sets,
      and whether it moved and whether it jumped. */
  datatype Outcome = Outcome(state: AvatarState, velocity: Vec, moved: bool, jumped: bool)

  /** The horizontal step: both arrows cancel, otherwise right wins over left, and a move
      needs `MOVEMENT_ENERGY`. */
  function MoveVelocity(energy: real, keys: Keys): real
  {
    if keys.right && keys.left then 0.0
    else if keys.right && energy >= MOVEMENT_ENERGY then AVATAR_VELOCITY
    else if keys.left && energy >= MOVEMENT_ENERGY then -AVATAR_VELOCITY
    else 0.0
  }

  /** The energy left after this frame's movement cost. */
  function EnergyAfterMove(s: AvatarState, keys: Keys): real
  {
    if MoveVelocity(s.energy, keys) != 0.0 then Clamp(s.energy - MOVEMENT_ENERGY) else s.energy
  }

  /** The "jump held without energy" flag once the key has been looked at, e1 being the energy
      after moving: raised when jump is held on the ground with e1 below 10, lowered when the
      key is up, kept otherwise. */
  function HeldFlag(s: AvatarState, keys: Keys, e1: real): bool
  {
    if keys.jump && s.onGround && e1 < JUMP_ENERGY then true
    else if !keys.jump then false
    else s.jumpKeyHeldWithInsufficientEnergy
  }

  /** Whether the jump fires this frame, e1 being the energy after moving. */
  function Jumps(s: AvatarState, keys: Keys, e1: real): bool
  {
    var jumpJustPressed := keys.jump && !s.jumpWasPressedLastFrame;
    var justLanded := s.onGround && !s.wasOnGroundLastFrame;
    var canJumpDueToEnergyRecovery := HeldFlag(s, keys, e1) && e1 >= JUMP_ENERGY;
    (jumpJustPressed || (keys.jump && justLanded) || canJumpDueToEnergyRecovery)
    && s.onGround && e1 >= JUMP_ENERGY
  }

  /** One frame of `updateAvatarLogic` on the fields, given the vertical velocity it reads. */
  function Logic(s: AvatarState, keys: Keys, vy: real): Outcome
  {
    var vx := MoveVelocity(s.energy, keys);
    var moved := vx != 0.0;
    var e1 := EnergyAfterMove(s, keys);
    var jumped := Jumps(s, keys, e1);
    var e2 := if jumped then Clamp(e1 - JUMP_ENERGY) else e1;
    var f1 := if jumped then 0 else Increment(s.framesSinceJump);
    var f2 := if jumped then 0 else Increment(s.framesSinceLastSuccessfulJump);
    var e3 := if s.onGround && !moved && f2 > MINIMUM_FRAMES_TO_REGENERATE_ENERGY then Clamp(e2 + 1.0) else e2;
    Outcome(
      AvatarState(e3, s.onGround, keys.jump, s.onGround, HeldFlag(s, keys, e1) && !jumped, f1, f2),
      Vec(vx, if jumped then AVATAR_JUMP_VELOCITY else vy),
      moved, jumped)
  }

  /** Horizontal movement: none with both arrows held, right before left, only with at least
      0.5 energy, at 430 pixels per second, and then it costs 0.5. */
  lemma MoveRule(s: AvatarState, keys: Keys, vy: real)
    requires 0.0 <= s.energy <= MAX_ENERGY
    ensures var r := Logic(s, keys, vy);
      && (r.moved <==> !(keys.right && keys.left) && (keys.right || keys.left) && s.energy >= MOVEMENT_ENERGY)
      && r.velocity.x == (if !r.moved then 0.0 else if keys.right then AVATAR_VELOCITY else -AVATAR_VELOCITY)
      && EnergyAfterMove(s, keys) == (if r.moved then s.energy - MOVEMENT_ENERGY else s.energy)
  {
  }

  /** The jump condition with the recovery flag unfolded: with the jump key held, a jump fires
      when it was just pressed, when the avatar just landed, or when the key has been held since
      energy was short; always on the ground and with at least 10 energy left after moving. A jump
      sets the jump velocity, resets both counters and clears the flag; otherwise the vertical
      velocity is kept and both counters step up by one, as `int`s (see `IncrementWraps`). */
  lemma JumpRule(s: AvatarState, keys: Keys, vy: real)
    ensures var r := Logic(s, keys, vy);
      var e1 := EnergyAfterMove(s, keys);
      && (r.jumped <==>
            keys.jump && s.onGround && e1 >= JUMP_ENERGY
            && (!s.jumpWasPressedLastFrame || !s.wasOnGroundLastFrame || s.jumpKeyHeldWithInsufficientEnergy))
      && (r.jumped ==>
            r.velocity.y == AVATAR_JUMP_VELOCITY && r.state.framesSinceJump == 0
            && r.state.framesSinceLastSuccessfulJump == 0 && !r.state.jumpKeyHeldWithInsufficientEnergy)
      && (!r.jumped ==>
            r.velocity.y == vy && r.state.framesSinceJump == Increment(s.framesSinceJump)
            && r.state.framesSinceLastSuccessfulJump == Increment(s.framesSinceLastSuccessfulJump))
  {
  }

  /** Holding jump on the ground without enough energy raises the flag, releasing the key
      lowers it, and the flag is only ever up while the key is held. */
  lemma FlagRule(s: AvatarState, keys: Keys, vy: real)
    ensures var r := Logic(s, keys, vy);
      && (keys.jump && s.onGround && EnergyAfterMove(s, keys) < JUMP_ENERGY ==> r.state.jumpKeyHeldWithInsufficientEnergy)
      && (r.state.jumpKeyHeldWithInsufficientEnergy ==> keys.jump)
  {
  }

  /** A held key whose flag is up jumps as soon as energy has recovered to 10. */
  lemma RecoveryJump(s: AvatarState, keys: Keys, vy: real)
    requires s.jumpKeyHeldWithInsufficientEnergy && keys.jump && s.onGround
    requires EnergyAfterMove(s, keys) >= JUMP_ENERGY
    ensures Logic(s, keys, vy).jumped
  {
  }

  /** Energy only grows by regeneration, by at most 1, and only on the ground, without a move,
      and more than 50 frames after the last successful jump (so never in a jump frame). */
  lemma RegenRule(s: AvatarState, keys: Keys, vy: real)
    requires 0.0 <= s.energy <= MAX_ENERGY
    ensures var r := Logic(s, keys, vy);
      && (r.state.energy > s.energy ==>
            s.onGround && !r.moved && !r.jumped
            && r.state.framesSinceLastSuccessfulJump > MINIMUM_FRAMES_TO_REGENERATE_ENERGY
            && r.state.energy <= s.energy + 1.0)
  {
  }

  /** Energy stays in [0, 100], and one frame spends at most 10.5 of it. */
  lemma EnergyBounds(s: AvatarState, keys: Keys, vy: real)
    requires 0.0 <= s.energy <= MAX_ENERGY
    ensures var r := Logic(s, keys, vy);
      && 0.0 <= r.state.energy <= MAX_ENERGY
      && r.state.energy >= s.energy - MOVEMENT_ENERGY - JUMP_ENERGY
  {
  }

  /** The edge detectors remember this frame's jump key and on-ground flag. */
  lemma LastFrameFlags(s: AvatarState, keys: Keys, vy: real)
    ensures var r := Logic(s, keys, vy);
      && r.state.jumpWasPressedLastFrame == keys.jump
      && r.state.wasOnGroundLastFrame == s.onGround
      && r.state.onGround == s.onGround
  {
  }

  /** The player character's logic state. */
  class Avatar {
    var energy: real
    var onGround: bool
    var jumpWasPressedLastFrame: bool
    var wasOnGroundLastFrame: bool
    var jumpKeyHeldWithInsufficientEnergy: bool
    var framesSinceJump: Int32
    var framesSinceLastSuccessfulJump: Int32
    /** The velocity the engine moves the avatar by. */
    var velocity: Vec

    function State(): AvatarState
      reads this
    {
      AvatarState(energy, onGround, jumpWasPressedLastFrame, wasOnGroundLastFrame,
                  jumpKeyHeldWithInsufficientEnergy, framesSinceJump, framesSinceLastSuccessfulJump)
    }

    /** Energy within [0, 100]. */
    ghost predicate Valid()
      reads this
    {
      0.0 <= energy <= MAX_ENERGY
    }

    /** Full energy, not on the ground, all edge flags down, both counters at 100. */
    constructor ()
      ensures Valid()
      ensures State() == AvatarState(MAX_ENERGY, false, false, false, false, INITIAL_FRAMES, INITIAL_FRAMES)
      ensures velocity == Vec(0.0, 0.0)
    {
      energy := MAX_ENERGY;
      onGround := false;
      jumpWasPressedLastFrame := false;
      wasOnGroundLastFrame := false;
      jumpKeyHeldWithInsufficientEnergy := false;
      framesSinceJump := INITIAL_FRAMES;
      framesSinceLastSuccessfulJump := INITIAL_FRAMES;
      velocity := Vec(0.0, 0.0);
    }

    /** `changeEnergy`: adds delta and clamps the sum to [0, 100]; no other field changes. */
    method ChangeEnergy(delta: real)
      modifies this`energy
      ensures Valid()
      ensures energy == Clamp(old(energy) + delta)
    {
      energy := Clamp(energy + delta);
    }

    /** `addEnergy`: the public entry to `changeEnergy`. */
    method AddEnergy(amount: real)
      modifies this`energy
      ensures Valid()
      ensures energy == Clamp(old(energy) + amount)
    {
      ChangeEnergy(amount);
    }

    /** `isRain`: the space key is down and a jump is affordable. */
    function IsRain(spacePressed: bool): (r: bool)
      reads this
      ensures r <==> spacePressed && energy >= JUMP_ENERGY
    {
      spacePressed && energy >= JUMP_ENERGY
    }

    /** `onCollisionStay`: standing on a "ground" or "trunk" object (contact normal pointing
        up, below -0.5) sets the on-ground flag; any other contact leaves it. */
    method OnCollisionStay(otherTag: string, normalY: real)
      modifies this
      ensures onGround == (old(onGround) || ((otherTag == GROUND_TAG || otherTag == TRUNK_TAG) && normalY < GROUND_MIN))
      ensures State() == old(State()).(onGround := onGround)
      ensures velocity == old(velocity)
    {
      if otherTag == GROUND_TAG || otherTag == TRUNK_TAG {
        if normalY < GROUND_MIN {
          onGround := true;
        }
      }
    }

    /** `update`: the engine's `update` runs the avatar's two components in the order they were
        added, gravity (the vertical velocity grows by 600 per second) and then
        `updateAvatarLogic`; then the on-ground flag is cleared, before the contacts of the
        next frame set it again. */
    method Update(keys: Keys, deltaTime: real)
      modifies this
      ensures var out := Logic(old(State()), keys, old(velocity.y) + GRAVITY * deltaTime);
        State() == out.state.(onGround := false) && velocity == out.velocity
      ensures old(Valid()) ==> Valid()
    {
      velocity := velocity.Add(Vec(0.0, GRAVITY * deltaTime));
      UpdateAvatarLogic(keys);
      onGround := false;
    }

    /** The horizontal part of `updateAvatarLogic`: the velocity it picks, whether it moved,
        and the movement cost taken from the energy. */
    method HandleMovement(keys: Keys) returns (horizontalVelocity: real, moved: bool)
      modifies this`energy
      ensures horizontalVelocity == MoveVelocity(old(energy), keys)
      ensures moved == (horizontalVelocity != 0.0)
      ensures energy == if moved then Clamp(old(energy) - MOVEMENT_ENERGY) else old(energy)
    {
      horizontalVelocity := 0.0;
      moved := false;
      var right := keys.right;
      var left := keys.left;
      if !(right && left) {
        if right && energy >= MOVEMENT_ENERGY {
          horizontalVelocity := horizontalVelocity + AVATAR_VELOCITY;
          ChangeEnergy(-MOVEMENT_ENERGY);
          moved := true;
        } else if left && energy >= MOVEMENT_ENERGY {
          horizontalVelocity := horizontalVelocity - AVATAR_VELOCITY;
          ChangeEnergy(-MOVEMENT_ENERGY);
          moved := true;
        }
      }

    }

    /** The jump part of `updateAvatarLogic`, after movement: the flag update, the jump when
        it fires (velocity, cost, counters reset, flag cleared), the counters stepping up when
        it does not, and the edge detectors remembering this frame. */
    method HandleJump(keys: Keys) returns (verticalVelocity: real, jumped: bool)
      modifies this`energy, this`jumpKeyHeldWithInsufficientEnergy, this`framesSinceJump,
               this`framesSinceLastSuccessfulJump, this`jumpWasPressedLastFrame, this`wasOnGroundLastFrame
      ensures jumped == Jumps(old(State()), keys, old(energy))
      ensures verticalVelocity == if jumped then AVATAR_JUMP_VELOCITY else old(velocity.y)
      ensures energy == if jumped then Clamp(old(energy) - JUMP_ENERGY) else old(energy)
      ensures framesSinceJump == if jumped then 0 else Increment(old(framesSinceJump))
      ensures framesSinceLastSuccessfulJump == if jumped then 0 else Increment(old(framesSinceLastSuccessfulJump))
      ensures jumpKeyHeldWithInsufficientEnergy == (HeldFlag(old(State()), keys, old(energy)) && !jumped)
      ensures jumpWasPressedLastFrame == keys.jump && wasOnGroundLastFrame == old(onGround)
    {
      ghost var s := State();
      var jumpNow := keys.jump;
      var jumpJustPressed := jumpNow && !jumpWasPressedLastFrame;
      var justLanded := onGround && !wasOnGroundLastFrame;
      verticalVelocity := velocity.y;

      if jumpNow && onGround && energy < JUMP_ENERGY {
        jumpKeyHeldWithInsufficientEnergy := true;
      }
      if !jumpNow {
        jumpKeyHeldWithInsufficientEnergy := false;
      }
      assert jumpKeyHeldWithInsufficientEnergy == HeldFlag(s, keys, energy);
      var canJumpDueToEnergyRecovery := jumpKeyHeldWithInsufficientEnergy && energy >= JUMP_ENERGY;

      jumped := (jumpJustPressed || (jumpNow && justLanded) || canJumpDueToEnergyRecovery)
                && onGround && energy >= JUMP_ENERGY;
      if jumped {
        verticalVelocity := AVATAR_JUMP_VELOCITY;
        ChangeEnergy(-JUMP_ENERGY);
        framesSinceJump := 0;
        framesSinceLastSuccessfulJump := 0;
        jumpKeyHeldWithInsufficientEnergy := false;
      } else {
        framesSinceJump := Increment(framesSinceJump);
        framesSinceLastSuccessfulJump := Increment(framesSinceLastSuccessfulJump);
      }
      jumpWasPressedLastFrame := jumpNow;
      wasOnGroundLastFrame := onGround;
    }

    /** `updateAvatarLogic`: one frame of movement, jump, flag and regeneration logic. */
    method UpdateAvatarLogic(keys: Keys)
      modifies this
      ensures State() == Logic(old(State()), keys, old(velocity.y)).state
      ensures velocity == Logic(old(State()), keys, old(velocity.y)).velocity
      ensures old(Valid()) ==> Valid()
    {
      ghost var s := State();
      ghost var out := Logic(s, keys, velocity.y);
      var horizontalVelocity, moved := HandleMovement(keys);
      ghost var e1 := energy;
      assert HeldFlag(State(), keys, e1) == HeldFlag(s, keys, e1);
      assert Jumps(State(), keys, e1) == Jumps(s, keys, e1);
      var verticalVelocity, jumped := HandleJump(keys);
      assert jumped == out.jumped;

      if onGround && !moved && framesSinceLastSuccessfulJump > MINIMUM_FRAMES_TO_REGENERATE_ENERGY {
        ChangeEnergy(1.0);
      }
      velocity := Vec(horizontalVelocity, verticalVelocity);
    }
  }

  /** `isRain` is the jump's own energy test on the jump key: when it holds on the ground and
      the avatar does not move, the jump fires exactly on a fresh press, a landing or a key held
      since energy was short, and either way the "held without energy" flag ends up down. */
  lemma RainJumpTests(a: Avatar, keys: Keys, vy: real)
    requires a.IsRain(keys.jump) && a.onGround
    requires MoveVelocity(a.energy, keys) == 0.0
    ensures var r := Logic(a.State(), keys, vy);
      && (r.jumped <==> !a.jumpWasPressedLastFrame || !a.wasOnGroundLastFrame || a.jumpKeyHeldWithInsufficientEnergy)
      && !r.state.jumpKeyHeldWithInsufficientEnergy
  {
  }
}
