/**
 * The movement / animation bridge of the player (PlayerController).
 *
 * Two flags, canMove and isJumping, guard every command. The animator is
 * reduced to the set of its triggers that are currently set; the rigidbody
 * to its linear and angular velocity (reals, not floats) and a log of the
 * impulses applied to it. The two float threshold tests of the source
 * (horizontal speed above 0.1, contact normal's y above 0.7) are passed in
 * as booleans, since physics moves the body between calls.
 *
 * The rigidbody and animator references start null and are looked up in
 * Start. A component that is missing leaves its reference null; a call that
 * then reaches the null animator ends in a null-reference exception, modelled
 * as the outcome NullAnimator after the assignments made before it.
 */
module Player {

  datatype Trigger = Idle | Walk | Jump

  /** An impulse force applied to the rigidbody. */
  datatype Impulse = Impulse(forward: real, upward: real)

  /** How a command ended: normally, or by dereferencing the null animator. */
  datatype Outcome = Done | NullAnimator

  class PlayerController {
    /** Whether the game object carries a Rigidbody2D and an Animator. */
    const rigidbodyAttached: bool
    const animatorAttached: bool

    /** Whether Start has looked the components up (true: rb / animator are non-null). */
    var rb: bool
    var animator: bool
    var started: bool
    /** The component's `enabled` flag; the engine stops calling Update when it is false. */
    var enabled: bool

    var canMove: bool
    var isJumping: bool

    var triggers: set<Trigger>
    var velocityX: real
    var velocityY: real
    var angularVelocity: real
    var impulses: seq<Impulse>

    /**
     * With both references present exactly one trigger is set, and it is
     * Jump exactly while jumping; without them no trigger has been set.
     * Only a body that was found can be jumping.
     */
    ghost predicate Valid()
      reads this
    {
      && (rb ==> rigidbodyAttached && started)
      && (animator ==> animatorAttached && started)
      && (rb && animator ==>
            (triggers == {Idle} || triggers == {Walk} || triggers == {Jump})
            && (isJumping <==> triggers == {Jump}))
      && (!(rb && animator) ==> triggers == {})
      && (isJumping ==> rb)
    }

    /** The component as added to a game object, before Start. */
    constructor (rigidbodyAttached: bool, animatorAttached: bool, velocityX: real, velocityY: real)
      ensures Valid()
      ensures this.rigidbodyAttached == rigidbodyAttached && this.animatorAttached == animatorAttached
      ensures !started && !rb && !animator && enabled
      ensures canMove && !isJumping && triggers == {} && impulses == []
      ensures this.velocityX == velocityX && this.velocityY == velocityY
    {
      this.rigidbodyAttached := rigidbodyAttached;
      this.animatorAttached := animatorAttached;
      rb, animator, started, enabled := false, false, false, true;
      canMove, isJumping := true, false;
      triggers := {};
      this.velocityX, this.velocityY, angularVelocity := velocityX, velocityY, 0.0;
      impulses := [];
    }

    /**
     * Looks up both components. If either is missing the component disables
     * itself and sets no trigger; otherwise the animator starts in Idle.
     */
    method Start()
      requires Valid() && !started
      modifies this
      ensures Valid() && started
      ensures rb == rigidbodyAttached && animator == animatorAttached
      ensures enabled == (old(enabled) && rigidbodyAttached && animatorAttached)
      ensures triggers == if rigidbodyAttached && animatorAttached then {Idle} else {}
      ensures canMove == old(canMove) && isJumping == old(isJumping) && impulses == old(impulses)
      ensures velocityX == old(velocityX) && velocityY == old(velocityY)
      ensures angularVelocity == old(angularVelocity)
    {
      started := true;
      rb := rigidbodyAttached;
      animator := animatorAttached;
      if !rb {
        enabled := false;
        return;
      }
      if !animator {
        enabled := false;
        return;
      }
      triggers := triggers + {Idle};
    }

    /**
     * A jump: nothing at all happens when movement is disabled or the body
     * is missing; otherwise the controller is jumping, only Jump is set and
     * exactly one impulse (forwardForce, upwardForce) is applied.
     */
    method PerformJump(forwardForce: real, upwardForce: real) returns (outcome: Outcome)
      requires Valid()
      modifies this
      ensures Valid()
      ensures !old(canMove) || !rb ==> outcome == Done && unchanged(this)
      ensures old(canMove) && rb && animator ==>
        && outcome == Done && isJumping && triggers == {Jump}
        && impulses == old(impulses) + [Impulse(forwardForce, upwardForce)]
      ensures old(canMove) && rb && !animator ==>
        outcome == NullAnimator && isJumping && triggers == old(triggers) && impulses == old(impulses)
      ensures canMove == old(canMove) && rb == old(rb) && animator == old(animator)
      ensures enabled == old(enabled) && started == old(started)
      ensures velocityX == old(velocityX) && velocityY == old(velocityY)
      ensures angularVelocity == old(angularVelocity)
    {
      if !canMove || !rb {
        return Done;
      }
      isJumping := true;
      if !animator {
        return NullAnimator;
      }
      triggers := triggers - {Idle, Walk};
      triggers := triggers + {Jump};
      impulses := impulses + [Impulse(forwardForce, upwardForce)];
      outcome := Done;
    }

    /** Allows or forbids movement; forbidding it also stops the player. */
    method EnableMovement(enable: bool) returns (outcome: Outcome)
      requires Valid()
      modifies this
      ensures Valid()
      ensures canMove == enable
      ensures enable ==> outcome == Done && unchanged(this`isJumping, this`triggers, this`velocityX, this`velocityY)
      ensures !enable ==> StoppedFrom(old(isJumping), old(triggers), old(velocityX), old(velocityY), outcome)
      ensures isJumping == old(isJumping) && impulses == old(impulses)
      ensures angularVelocity == old(angularVelocity)
      ensures rb == old(rb) && animator == old(animator)
      ensures enabled == old(enabled) && started == old(started)
    {
      canMove := enable;
      outcome := Done;
      if !enable {
        outcome := StopMovement();
      }
    }

    /**
     * What StopMovement does, from the flags, triggers and velocity before
     * the call: with a body, the horizontal velocity is zeroed and the
     * vertical kept; and unless jumping, only Idle is set.
     */
    ghost predicate StoppedFrom(wasJumping: bool, oldTriggers: set<Trigger>, oldX: real, oldY: real,
                                outcome: Outcome)
      reads this
    {
      && velocityY == oldY
      && (!rb ==> outcome == Done && triggers == oldTriggers && velocityX == oldX)
      && (rb ==> velocityX == 0.0)
      && (rb && wasJumping ==> outcome == Done && triggers == oldTriggers)
      && (rb && !wasJumping && animator ==> outcome == Done && triggers == {Idle})
      && (rb && !wasJumping && !animator ==> outcome == NullAnimator && triggers == oldTriggers)
    }

    /** Stops horizontal motion, keeping vertical motion; see StoppedFrom. */
    method StopMovement() returns (outcome: Outcome)
      requires Valid()
      modifies this
      ensures Valid()
      ensures StoppedFrom(old(isJumping), old(triggers), old(velocityX), old(velocityY), outcome)
      ensures canMove == old(canMove) && isJumping == old(isJumping) && impulses == old(impulses)
      ensures angularVelocity == old(angularVelocity)
      ensures rb == old(rb) && animator == old(animator)
      ensures enabled == old(enabled) && started == old(started)
    {
      outcome := Done;
      if rb {
        velocityX := 0.0;
        if !isJumping {
          if !animator {
            return NullAnimator;
          }
          triggers := triggers - {Walk, Jump};
          triggers := triggers + {Idle};
        }
      }
    }

    /**
     * Stops all motion, linear and angular; unless jumping, only Idle is
     * set. Without a body nothing happens.
     */
    method ResetVelocity() returns (outcome: Outcome)
      requires Valid()
      modifies this
      ensures Valid()
      ensures !rb ==> outcome == Done && unchanged(this)
      ensures rb ==> velocityX == 0.0 && velocityY == 0.0 && angularVelocity == 0.0
      ensures rb && old(isJumping) ==> outcome == Done && triggers == old(triggers)
      ensures rb && !old(isJumping) && animator ==> outcome == Done && triggers == {Idle}
      ensures rb && !old(isJumping) && !animator ==> outcome == NullAnimator && triggers == old(triggers)
      ensures canMove == old(canMove) && isJumping == old(isJumping) && impulses == old(impulses)
      ensures rb == old(rb) && animator == old(animator)
      ensures enabled == old(enabled) && started == old(started)
    {
      outcome := Done;
      if rb {
        velocityX, velocityY := 0.0, 0.0;
        angularVelocity := 0.0;
        if !isJumping {
          if !animator {
            return NullAnimator;
          }
          triggers := triggers - {Walk, Jump};
          triggers := triggers + {Idle};
        }
      }
    }

    /**
     * One frame. Nothing happens when movement is disabled, the body is
     * missing or the player is jumping; otherwise only Walk is set when the
     * horizontal speed is above the threshold, and only Idle when it is not.
     */
    method Update(movingHorizontally: bool) returns (outcome: Outcome)
      requires Valid()
      modifies this`triggers
      ensures Valid()
      ensures !canMove || !rb || isJumping ==> outcome == Done && triggers == old(triggers)
      ensures canMove && rb && !isJumping && animator ==>
        outcome == Done && triggers == (if movingHorizontally then {Walk} else {Idle})
      ensures canMove && rb && !isJumping && !animator ==>
        outcome == NullAnimator && triggers == old(triggers)
    {
      outcome := Done;
      if !canMove || !rb {
        return;
      }
      if !isJumping {
        if !animator {
          return NullAnimator;
        }
        if movingHorizontally {
          triggers := triggers - {Idle, Jump};
          triggers := triggers + {Walk};
        } else {
          triggers := triggers - {Walk, Jump};
          triggers := triggers + {Idle};
        }
      }
    }

    /**
     * A collision: landing (the contact normal points up steeply enough)
     * while jumping ends the jump and leaves only Idle set; any other
     * collision changes nothing.
     */
    method OnCollisionEnter2D(landingNormal: bool) returns (outcome: Outcome)
      requires Valid()
      modifies this`isJumping, this`triggers
      ensures Valid()
      ensures !(landingNormal && old(isJumping)) ==>
        outcome == Done && isJumping == old(isJumping) && triggers == old(triggers)
      ensures landingNormal && old(isJumping) ==> !isJumping
      ensures landingNormal && old(isJumping) && animator ==> outcome == Done && triggers == {Idle}
      ensures landingNormal && old(isJumping) && !animator ==>
        outcome == NullAnimator && triggers == old(triggers)
    {
      outcome := Done;
      if landingNormal && isJumping {
        isJumping := false;
        if !animator {
          return NullAnimator;
        }
        triggers := triggers - {Jump};
        triggers := triggers + {Idle};
      }
    }
  }

  /**
   * A jump while movement is disabled is ignored; once movement is enabled
   * again the same jump sets Jump and applies its impulse once; landing
   * returns to Idle.
   */
  method JumpScenario() returns (blocked: seq<Impulse>, allowed: seq<Impulse>,
                                 airborne: set<Trigger>, landed: set<Trigger>)
    ensures blocked == []
    ensures allowed == [Impulse(2.0, 5.0)]
    ensures airborne == {Jump} && landed == {Idle}
  {
    var p := new PlayerController(true, true, 1.5, 0.0);
    p.Start();
    var o := p.EnableMovement(false);
    o := p.PerformJump(2.0, 5.0);
    blocked := p.impulses;
    o := p.EnableMovement(true);
    o := p.PerformJump(2.0, 5.0);
    allowed, airborne := p.impulses, p.triggers;
    o := p.OnCollisionEnter2D(true);
    landed := p.triggers;
  }

  /** Without an animator Start disables the component and later jumps set no trigger. */
  method MissingAnimatorScenario() returns (enabled: bool, outcome: Outcome, triggers: set<Trigger>)
    ensures !enabled && outcome == NullAnimator && triggers == {}
  {
    var p := new PlayerController(true, false, 0.0, 0.0);
    p.Start();
    outcome := p.PerformJump(1.0, 1.0);
    enabled, triggers := p.enabled, p.triggers;
  }
}
