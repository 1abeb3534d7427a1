/**
 * The hero as the core sees it: its box, horizontal speed, facing, current move
 * state, current animation, and the trace of effects the core asked for that
 * this model does not follow (sounds played, requests to the concrete state
 * handlers).
 */
module HeroModel {
  import opened Wrappers
  import opened Geometry
  import opened HeroStateTypes

  /** The facing state: right, left, or neither (the move update then does nothing). */
  datatype Facing = FacingRight | FacingLeft | FacingNeither

  /** An animation asset. */
  datatype Animation = Animation(id: nat)

  /** The events of `HeroMoveState` whose handlers are left to the concrete states. */
  datatype MoveEvent = Stand | Jump | Slide | Fall | Die | Run

  /** Effects the core requests, in order. */
  datatype Effect =
    | AnimationSet(animation: Option<Animation>)
    | SoundPlayed(sound: Sound)
    | Requested(event: MoveEvent)

  /**
   * A `HeroMoveState` object: the kind its concrete class reports through
   * `getStateType()` (possibly `null`) and the animation map it was built with
   * (a missing or `null` entry is `None`).
   */
  datatype MoveState = MoveState(stateType: Option<HeroStateType>, animations: map<HeroStateType, Option<Animation>>)

  /** The animation map has one entry per state type (the constructor's size check). */
  predicate Complete<V>(animations: map<HeroStateType, V>) {
    |animations| == |Values()|
  }

  /** The abstract value of a hero. */
  datatype HeroView = HeroView(
    x: int, y: int, width: int, height: int, dx: int,
    facing: Facing, moveState: MoveState, animation: Option<Animation>, effects: seq<Effect>)

  function ViewBox(v: HeroView): Box { Box(v.x, v.y, v.width, v.height) }

  class Hero {
    var x: int
    var y: int
    var width: int
    var height: int
    var dx: int
    var facing: Facing
    var moveState: MoveState
    var animation: Option<Animation>
    var effects: seq<Effect>

    /** Every move state a hero holds passed the completeness check when it was built. */
    ghost predicate Valid()
      reads this
    {
      Complete(moveState.animations)
    }

    function View(): HeroView
      reads this
    {
      HeroView(x, y, width, height, dx, facing, moveState, animation, effects)
    }

    /** `getCollisionBox()`. */
    function CollisionBox(): (b: Box)
      reads this
      ensures b == ViewBox(View())
    {
      Box(x, y, width, height)
    }

    /** `setX`. */
    method SetX(newX: int)
      modifies this
      ensures View() == old(View()).(x := newX)
    {
      x := newX;
    }

    /** `setY`. */
    method SetY(newY: int)
      modifies this
      ensures View() == old(View()).(y := newY)
    {
      y := newY;
    }

    /** `isMoving()`: the hero has a non-zero horizontal speed. */
    predicate IsMoving()
      reads this
    {
      dx != 0
    }

    /** `setAnimation`, with the call recorded in the effect trace. */
    method SetAnimation(a: Option<Animation>)
      modifies this
      ensures View() == old(View()).(animation := a, effects := old(effects) + [AnimationSet(a)])
    {
      animation := a;
      effects := effects + [AnimationSet(a)];
    }

    /** `changeMoveState`. */
    method ChangeMoveState(state: MoveState)
      modifies this
      ensures View() == old(View()).(moveState := state)
    {
      moveState := state;
    }

    /** A call to one of the handlers the concrete move states define (`onFall`, `onStand`, ...). */
    method Request(event: MoveEvent)
      modifies this
      ensures View() == old(View()).(effects := old(effects) + [Requested(event)])
    {
      effects := effects + [Requested(event)];
    }
  }
}
