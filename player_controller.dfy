/**
 * The per-frame movement and variable-height jump of `PlayerController`.
 *
 * Each frame (`Update`) runs three guarded steps in a fixed order after
 * overwriting the horizontal velocity: start a jump when grounded and the
 * button was pressed, add the hold boost while the button is held and the
 * hold timer is below `maxJumpTime`, and stop the jump on release or when the
 * timer has run out. The collision callbacks set and clear the ground flag.
 *
 * The input source and the frame time are parameters of a frame; the
 * rigidbody's velocity is the triple `(vx, vy, vz)`.
 */
module PlayerControl {

  /** The inspector-tunable settings of the controller. */
  datatype Tuning = Tuning(moveSpeed: real, jumpForce: real, maxJumpTime: real, jumpHoldForce: real)

  /** The controller's mutable state together with the rigidbody's velocity. */
  datatype Body = Body(grounded: bool, jumping: bool, holdTime: real, vx: real, vy: real, vz: real)

  /** What one frame reads: the move stick, the three jump signals and the frame time. */
  datatype Input = Input(x: real, y: real, pressed: bool, held: bool, released: bool, dt: real)

  /** What the host delivers between states: a frame, or a collision callback. */
  datatype Event = Frame(input: Input) | ContactStay | ContactExit

  predicate ValidTuning(t: Tuning) {
    t.maxJumpTime > 0.0
  }

  /** Holds in every state the controller can reach: a jump in progress still has hold time left. */
  predicate JumpInvariant(t: Tuning, s: Body) {
    s.holdTime >= 0.0 && (s.jumping ==> s.holdTime < t.maxJumpTime)
  }

  /** This frame starts a jump. */
  predicate StartsJump(s: Body, i: Input) {
    s.grounded && i.pressed
  }

  /** One `Update`: the horizontal overwrite followed by the three jump steps, in source order. */
  function Step(t: Tuning, s: Body, i: Input): (r: Body)
    requires ValidTuning(t) && i.dt >= 0.0
    // movement: x and z come from the stick alone, the ground flag is untouched
    ensures r.vx == i.x * t.moveSpeed && r.vz == i.y * t.moveSpeed
    ensures r.grounded == s.grounded
    // a jump start sets vy to jumpForce and the timer to 0, and the boost comes after it
    ensures StartsJump(s, i) ==>
              r.vy == t.jumpForce + (if i.held then t.jumpHoldForce * i.dt else 0.0) &&
              r.holdTime == (if i.held then i.dt else 0.0)
    // otherwise the boost adds exactly jumpHoldForce*dt and dt, and only when its guard holds
    ensures !StartsJump(s, i) ==>
              if s.jumping && i.held && s.holdTime < t.maxJumpTime
              then r.vy == s.vy + t.jumpHoldForce * i.dt && r.holdTime == s.holdTime + i.dt
              else r.vy == s.vy && r.holdTime == s.holdTime
    // a frame in the air without a jump in progress leaves vy alone
    ensures !s.jumping && !s.grounded ==> r.vy == s.vy && r.holdTime == s.holdTime && !r.jumping
    // the jump stops on release or when the timer has run out, and continues otherwise
    ensures r.jumping <==> (s.jumping || StartsJump(s, i)) && !i.released && r.holdTime < t.maxJumpTime
    // timer bounds: never decreases except by a restart, and overshoots maxJumpTime by less than one frame
    ensures !StartsJump(s, i) ==> r.holdTime >= s.holdTime
    ensures StartsJump(s, i) ==> r.holdTime <= i.dt
    ensures s.holdTime <= t.maxJumpTime ==> r.holdTime <= t.maxJumpTime + i.dt
    ensures s.holdTime < t.maxJumpTime ==> r.holdTime < t.maxJumpTime + i.dt
    ensures s.holdTime >= t.maxJumpTime && !StartsJump(s, i) ==> r.holdTime == s.holdTime
    ensures s.holdTime >= 0.0 ==> JumpInvariant(t, r)
  {
    // Lines 28-29: horizontal velocity from the stick; vertical velocity kept.
    var vx, vz := i.x * t.moveSpeed, i.y * t.moveSpeed;
    // Lines 32-37: jump start.
    var start := StartsJump(s, i);
    var jumping := if start then true else s.jumping;
    var hold := if start then 0.0 else s.holdTime;
    var vy := if start then t.jumpForce else s.vy;
    // Lines 40-44: hold boost.
    var boost := jumping && i.held && hold < t.maxJumpTime;
    var vy' := if boost then vy + t.jumpHoldForce * i.dt else vy;
    var hold' := if boost then hold + i.dt else hold;
    // Lines 47-50: jump stop.
    var jumping' := if i.released || hold' >= t.maxJumpTime then false else jumping;
    Body(s.grounded, jumping', hold', vx, vy', vz)
  }

  /** The state after one event: a frame, or a collision callback that only sets the ground flag. */
  function Apply(t: Tuning, s: Body, e: Event): Body
    requires ValidTuning(t) && (e.Frame? ==> e.input.dt >= 0.0)
  {
    match e
    case Frame(i) => Step(t, s, i)
    case ContactStay => s.(grounded := true)
    case ContactExit => s.(grounded := false)
  }

  predicate FrameTimesNonNegative(es: seq<Event>) {
    forall e :: e in es && e.Frame? ==> e.input.dt >= 0.0
  }

  /** The state after the host has delivered `es` in order. */
  function Run(t: Tuning, s: Body, es: seq<Event>): Body
    requires ValidTuning(t) && FrameTimesNonNegative(es)
    decreases |es|
  {
    if es == [] then s else Run(t, Apply(t, s, es[0]), es[1..])
  }

  /** The ground flag as the last collision callback in `es` left it, or `g` if there was none. */
  function LastContact(g: bool, es: seq<Event>): bool
    decreases |es|
  {
    if es == [] then g
    else match es[|es| - 1]
      case ContactStay => true
      case ContactExit => false
      case Frame(_) => LastContact(g, es[..|es| - 1])
  }

  lemma {:induction false} RunAppend(t: Tuning, s: Body, es: seq<Event>, e: Event)
    requires ValidTuning(t) && FrameTimesNonNegative(es + [e])
    ensures FrameTimesNonNegative(es) && (e.Frame? ==> e.input.dt >= 0.0)
    ensures Run(t, s, es + [e]) == Apply(t, Run(t, s, es), e)
    decreases |es|
  {
    assert forall x :: x in es ==> x in es + [e];
    assert e in es + [e];
    if es != [] {
      assert (es + [e])[1..] == es[1..] + [e];
      RunAppend(t, Apply(t, s, es[0]), es[1..], e);
    }
  }

  /** Frames never touch the ground flag: after any run it is what the last collision callback set. */
  lemma {:induction false} RunGroundedIsLastContact(t: Tuning, s: Body, es: seq<Event>)
    requires ValidTuning(t) && FrameTimesNonNegative(es)
    ensures Run(t, s, es).grounded == LastContact(s.grounded, es)
    decreases |es|
  {
    if es != [] {
      var init, last := es[..|es| - 1], es[|es| - 1];
      assert es == init + [last];
      RunAppend(t, s, init, last);
      RunGroundedIsLastContact(t, s, init);
    }
  }

  /** Every state reachable from one satisfying the invariant satisfies it too. */
  lemma {:induction false} RunKeepsJumpInvariant(t: Tuning, s: Body, es: seq<Event>)
    requires ValidTuning(t) && FrameTimesNonNegative(es) && JumpInvariant(t, s)
    ensures JumpInvariant(t, Run(t, s, es))
    decreases |es|
  {
    if es != [] {
      assert es[0] in es;
      assert forall x :: x in es[1..] ==> x in es;
      RunKeepsJumpInvariant(t, Apply(t, s, es[0]), es[1..]);
    }
  }

  /** When no frame is longer than `maxDt`, the hold timer never exceeds `maxJumpTime + maxDt`. */
  lemma {:induction false} RunHoldTimeBound(t: Tuning, s: Body, es: seq<Event>, maxDt: real)
    requires ValidTuning(t) && FrameTimesNonNegative(es)
    requires forall e :: e in es && e.Frame? ==> e.input.dt <= maxDt
    requires s.holdTime <= t.maxJumpTime + maxDt
    ensures Run(t, s, es).holdTime <= t.maxJumpTime + maxDt
    decreases |es|
  {
    if es != [] {
      assert es[0] in es;
      assert forall x :: x in es[1..] ==> x in es;
      RunHoldTimeBound(t, Apply(t, s, es[0]), es[1..], maxDt);
    }
  }

  /** Without a jump press the hold timer only grows. */
  lemma {:induction false} RunHoldTimeMonotone(t: Tuning, s: Body, es: seq<Event>)
    requires ValidTuning(t) && FrameTimesNonNegative(es)
    requires forall e :: e in es && e.Frame? ==> !e.input.pressed
    ensures Run(t, s, es).holdTime >= s.holdTime
    decreases |es|
  {
    if es != [] {
      assert es[0] in es;
      assert forall x :: x in es[1..] ==> x in es;
      RunHoldTimeMonotone(t, Apply(t, s, es[0]), es[1..]);
    }
  }

  /**
   * There is no mid-air jump: starting airborne with no jump in progress and
   * never touching ground, no frame starts a jump or boosts it.
   */
  lemma {:induction false} RunNoAirJump(t: Tuning, s: Body, es: seq<Event>)
    requires ValidTuning(t) && FrameTimesNonNegative(es)
    requires !s.grounded && !s.jumping
    requires ContactStay !in es
    ensures var r := Run(t, s, es); !r.grounded && !r.jumping && r.holdTime == s.holdTime
    decreases |es|
  {
    if es != [] {
      assert es[0] in es;
      assert forall x :: x in es[1..] ==> x in es;
      RunNoAirJump(t, Apply(t, s, es[0]), es[1..]);
    }
  }

  /** `Step` is the three guarded blocks applied one after another; `s1` and `s2` are the states between them. */
  lemma StepInBlocks(t: Tuning, s0: Body, i: Input, s1: Body, s2: Body)
    requires ValidTuning(t) && i.dt >= 0.0
    requires s1 == Body(s0.grounded, StartsJump(s0, i) || s0.jumping, if StartsJump(s0, i) then 0.0 else s0.holdTime,
                        i.x * t.moveSpeed, if StartsJump(s0, i) then t.jumpForce else s0.vy, i.y * t.moveSpeed)
    requires s2 == if s1.jumping && i.held && s1.holdTime < t.maxJumpTime
                   then s1.(vy := s1.vy + t.jumpHoldForce * i.dt, holdTime := s1.holdTime + i.dt) else s1
    ensures Step(t, s0, i) == s2.(jumping := s2.jumping && !(i.released || s2.holdTime >= t.maxJumpTime))
  {
  }

  class PlayerController {
    const moveSpeed: real
    const jumpForce: real
    const maxJumpTime: real
    const jumpHoldForce: real

    var jumpHoldTime: real
    var isGrounded: bool
    var isJumping: bool
    /** `rb.linearVelocity`. */
    var vx: real
    var vy: real
    var vz: real

    function Settings(): Tuning {
      Tuning(moveSpeed, jumpForce, maxJumpTime, jumpHoldForce)
    }

    function State(): Body
      reads this
    {
      Body(isGrounded, isJumping, jumpHoldTime, vx, vy, vz)
    }

    ghost predicate Valid()
      reads this
    {
      ValidTuning(Settings()) && JumpInvariant(Settings(), State())
    }

    /** A controller at rest, in the air, with no jump in progress. */
    constructor (moveSpeed: real, jumpForce: real, maxJumpTime: real, jumpHoldForce: real)
      requires maxJumpTime > 0.0
      ensures Valid()
      ensures Settings() == Tuning(moveSpeed, jumpForce, maxJumpTime, jumpHoldForce)
      ensures State() == Body(false, false, 0.0, 0.0, 0.0, 0.0)
    {
      this.moveSpeed := moveSpeed;
      this.jumpForce := jumpForce;
      this.maxJumpTime := maxJumpTime;
      this.jumpHoldForce := jumpHoldForce;
      jumpHoldTime := 0.0;
      isGrounded := false;
      isJumping := false;
      vx, vy, vz := 0.0, 0.0, 0.0;
    }

    /** `Update`, with the input source's answers and `Time.deltaTime` passed in. */
    method Tick(inputX: real, inputY: real, pressed: bool, held: bool, released: bool, dt: real)
      requires Valid() && dt >= 0.0
      modifies this
      ensures Valid()
      ensures State() == Step(Settings(), old(State()), Input(inputX, inputY, pressed, held, released, dt))
    {
      ghost var s0 := State();
      var moveX, moveZ := inputX * moveSpeed, inputY * moveSpeed;
      vx, vz := moveX, moveZ;

      if isGrounded && pressed {
        isJumping := true;
        jumpHoldTime := 0.0;
        vy := jumpForce;
      }
      ghost var s1 := State();

      if isJumping && held && jumpHoldTime < maxJumpTime {
        vy := vy + jumpHoldForce * dt;
        jumpHoldTime := jumpHoldTime + dt;
      }
      ghost var s2 := State();

      if released || jumpHoldTime >= maxJumpTime {
        isJumping := false;
      }
      StepInBlocks(Settings(), s0, Input(inputX, inputY, pressed, held, released, dt), s1, s2);
    }

    /** `OnCollisionStay`: any contact counts as ground. */
    method OnContactStay()
      requires Valid()
      modifies this`isGrounded
      ensures Valid() && isGrounded
      ensures State() == Apply(Settings(), old(State()), ContactStay)
    {
      isGrounded := true;
    }

    /** `OnCollisionExit`. */
    method OnContactExit()
      requires Valid()
      modifies this`isGrounded
      ensures Valid() && !isGrounded
      ensures State() == Apply(Settings(), old(State()), ContactExit)
    {
      isGrounded := false;
    }
  }
}
