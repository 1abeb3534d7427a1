/**
 * `HeroMoveState`: the behaviour every move state shares. Building a state
 * checks the animation map, sets the hero's animation and plays the state's
 * sound; `move` shifts the hero horizontally by its speed according to its
 * facing; the final `onIdle` turns a moving hero into a running one and
 * otherwise defers to the concrete state's `onStand`.
 */
module HeroMoveStates {
  import opened Wrappers
  import opened JavaLang
  import opened HeroStateTypes
  import opened HeroModel

  /** The animation `setAnimation` installs: the map entry of the state's type, `null` when the type is `null` or the entry is missing. */
  function AnimationOf(state: MoveState): Option<Animation>
  {
    match state.stateType
    case None => None
    case Some(t) => if t in state.animations then state.animations[t] else None
  }

  /** The sounds `playSound` plays: the one registered for the state's type, or none. */
  function SoundsOf(stateType: Option<HeroStateType>, sounds: map<HeroStateType, Sound>): seq<Effect>
  {
    match stateType
    case None => []
    case Some(t) => if t in sounds then [SoundPlayed(sounds[t])] else []
  }

  /** The hero after a state is built: animation set, then the sound played. */
  function Entered(v: HeroView, state: MoveState, sounds: map<HeroStateType, Sound>): HeroView
  {
    var a := AnimationOf(state);
    v.(animation := a, effects := v.effects + [AnimationSet(a)] + SoundsOf(state.stateType, sounds))
  }

  /** Entering a state touches only the animation and the trace; it never throws for a missing animation or sound. */
  lemma EnteringSetsAnimationThenAtMostOneSound(v: HeroView, state: MoveState, sounds: map<HeroStateType, Sound>)
    ensures var w := Entered(v, state, sounds);
      && w.(animation := v.animation, effects := v.effects) == v
      && |v.effects| < |w.effects| <= |v.effects| + 2
      && w.effects[..|v.effects|] == v.effects
      && w.effects[|v.effects|] == AnimationSet(w.animation)
      && (forall i :: |v.effects| < i < |w.effects| ==> w.effects[i].SoundPlayed?)
      && (|w.effects| == |v.effects| + 2 <==> state.stateType.Some? && state.stateType.value in sounds)
      && (w.animation.Some? ==>
            state.stateType.Some? && state.stateType.value in state.animations
            && state.animations[state.stateType.value] == w.animation)
  {
  }

  /**
   * The constructor: throws unless the map has one entry per state type;
   * otherwise sets the hero's animation, then plays the state's sound.
   */
  method NewMoveState(hero: Hero, stateType: Option<HeroStateType>,
                      animations: map<HeroStateType, Option<Animation>>, sounds: map<HeroStateType, Sound>)
    returns (r: Result<MoveState, Exception>)
    modifies hero
    ensures r.Failure? <==> !Complete(animations)
    ensures r.Failure? ==> hero.View() == old(hero.View())
    ensures r.Success? ==> r.value == MoveState(stateType, animations)
    ensures r.Success? ==> hero.View() == Entered(old(hero.View()), r.value, sounds)
  {
    if |animations| != |Values()| {
      return Failure(IllegalArgumentException("The set of the animations is not complete"));
    }
    var state := MoveState(stateType, animations);
    SetAnimation(hero, state);
    PlaySound(hero, stateType, sounds);
    return Success(state);
  }

  method SetAnimation(hero: Hero, state: MoveState)
    modifies hero
    ensures hero.View() == old(hero.View()).(animation := AnimationOf(state),
                                             effects := old(hero.effects) + [AnimationSet(AnimationOf(state))])
  {
    if state.stateType.None? {
      hero.SetAnimation(None);
      return;
    }
    var t := state.stateType.value;
    var animation := if t in state.animations then state.animations[t] else None;
    if animation.None? {
      hero.SetAnimation(None);
      return;
    }
    hero.SetAnimation(animation);
  }

  method PlaySound(hero: Hero, stateType: Option<HeroStateType>, sounds: map<HeroStateType, Sound>)
    modifies hero
    ensures hero.View() == old(hero.View()).(effects := old(hero.effects) + SoundsOf(stateType, sounds))
  {
    if stateType.None? {
      return;
    }
    var t := stateType.value;
    if t !in sounds {
      return;
    }
    hero.effects := hero.effects + [SoundPlayed(sounds[t])];
  }

  /** How far `move` shifts the hero: its speed rightward, leftward, or not at all. */
  function Displacement(facing: Facing, dx: int): int
  {
    match facing
    case FacingRight => dx
    case FacingLeft => -dx
    case FacingNeither => 0
  }

  /** The hero after `move`. */
  function Moved(v: HeroView): HeroView
  {
    v.(x := v.x + Displacement(v.facing, v.dx))
  }

  /** `move` changes only x: by +dx facing right, by -dx facing left, not at all otherwise. */
  lemma MoveShiftsOnlyX(v: HeroView)
    ensures Moved(v).(x := v.x) == v
    ensures v.facing == FacingRight ==> Moved(v).x == v.x + v.dx
    ensures v.facing == FacingLeft ==> Moved(v).x == v.x - v.dx
    ensures v.facing == FacingNeither ==> Moved(v) == v
  {
  }

  /** A step right and a step left at the same speed cancel out. */
  lemma MoveRightThenLeftReturns(v: HeroView)
    requires v.facing == FacingRight
    ensures Moved(Moved(v).(facing := FacingLeft)).x == v.x
  {
  }

  /** `move` / `updateCoordinates`. */
  method Move(hero: Hero)
    modifies hero
    ensures hero.View() == Moved(old(hero.View()))
  {
    if hero.facing == FacingRight {
      hero.SetX(hero.x + hero.dx);
    } else if hero.facing == FacingLeft {
      hero.SetX(hero.x - hero.dx);
    }
  }

  /** The hero after `onIdle`: a fresh running state when moving, the concrete `onStand` otherwise. */
  function Idled(v: HeroView, sounds: map<HeroStateType, Sound>): HeroView
  {
    if v.dx != 0 then
      var running := MoveState(Some(RUN), v.moveState.animations);
      Entered(v, running, sounds).(moveState := running)
    else
      v.(effects := v.effects + [Requested(Stand)])
  }

  /** A moving hero always ends up running after `onIdle`, keeping its animation map and position. */
  lemma OnIdleWhileMovingRuns(v: HeroView, sounds: map<HeroStateType, Sound>)
    requires v.dx != 0
    ensures Idled(v, sounds).moveState == MoveState(Some(RUN), v.moveState.animations)
    ensures ViewBox(Idled(v, sounds)) == ViewBox(v)
    ensures Requested(Stand) !in Idled(v, sounds).effects[|v.effects|..]
  {
    EnteringSetsAnimationThenAtMostOneSound(v, MoveState(Some(RUN), v.moveState.animations), sounds);
  }

  /** A hero at rest is handed to the current state's `onStand`, and nothing else happens. */
  lemma OnIdleAtRestStands(v: HeroView, sounds: map<HeroStateType, Sound>)
    requires v.dx == 0
    ensures Idled(v, sounds) == v.(effects := v.effects + [Requested(Stand)])
  {
  }

  /**
   * `onIdle` is final: while the hero moves, what it does is the same whatever
   * the current concrete state is.
   */
  lemma OnIdleIgnoresCurrentStateWhileMoving(v: HeroView, current: Option<HeroStateType>, sounds: map<HeroStateType, Sound>)
    requires v.dx != 0
    ensures Idled(v.(moveState := v.moveState.(stateType := current)), sounds) == Idled(v, sounds)
  {
  }

  /** `onIdle`. */
  method OnIdle(hero: Hero, sounds: map<HeroStateType, Sound>)
    requires hero.Valid()
    modifies hero
    ensures hero.Valid()
    ensures hero.View() == Idled(old(hero.View()), sounds)
  {
    if hero.IsMoving() {
      var running := NewMoveState(hero, Some(RUN), hero.moveState.animations, sounds);
      assert running.Success?;
      hero.ChangeMoveState(running.value);
    } else {
      hero.Request(Stand);
    }
  }
}
