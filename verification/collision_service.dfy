/**
 * The services `CollisionManager`: each tick it ends the collisions that are
 * over (in the order the sprites collided last time), then begins a collision
 * for every sprite that now collides (in input order), and remembers the
 * colliding sprites for the next tick.
 *
 * `CollisionUtils.areColliding` / `collisionSide` and the outcomes of the
 * strategies (`collect`, the sword's `consume`) are given as an `Oracle`; the
 * reactions the manager triggers on the hero, enemies, power-ups and side
 * strategies are returned as a trace.
 */
module CollisionService {
  import opened Wrappers
  import opened JavaLang
  import opened HeroModel
  import opened PowerUpStrategies

  /** The side an obstacle touches; only BOTTOM matters to the manager itself. */
  datatype CollisionSideType = TOP | BOTTOM | LEFT | RIGHT

  /** A sprite, by its implementation type (`getSpriteImplType`) and identity. */
  datatype Sprite =
    | ObstacleSprite(id: nat)
    | EnemySprite(id: nat)
    | PowerUpSprite(id: nat, kind: PowerUpType)
    | OtherSprite(id: nat)

  /** The collaborators the manager consults but this model does not define. */
  datatype Oracle = Oracle(
    areColliding: Sprite -> bool,
    collisionSide: Sprite -> CollisionSideType,
    collects: Sprite -> bool,
    swordConsumed: Sprite -> bool)

  /** What a begin or end reaction does, in the order it does it. */
  datatype Reaction =
    | SideStrategyApplied(side: CollisionSideType, obstacle: Sprite)
    | EnemyAttacked(enemy: Sprite)
    | EnemyDied(enemy: Sprite)
    | HeroDied
    | PowerUpHidden(powerUp: Sprite)
    | FallRequested
    | EnemyIdled(enemy: Sprite)

  /** The reactions only `endCollision` produces. */
  predicate IsEndReaction(r: Reaction) {
    r.FallRequested? || r.EnemyIdled?
  }

  predicate AllEnd(rs: seq<Reaction>) {
    forall i :: 0 <= i < |rs| ==> IsEndReaction(rs[i])
  }

  predicate NoEnd(rs: seq<Reaction>) {
    forall i :: 0 <= i < |rs| ==> !IsEndReaction(rs[i])
  }

  /** Reactions so far and the current value of `wasOnObstacle`. */
  datatype Step = Step(reactions: seq<Reaction>, wasOnObstacle: bool)

  /** `endCollision`. */
  function EndStep(s: Sprite, wasOnObstacle: bool): (r: Step)
    ensures AllEnd(r.reactions)
    ensures s.ObstacleSprite? ==> !r.wasOnObstacle && r.reactions == (if wasOnObstacle then [FallRequested] else [])
    ensures s.EnemySprite? ==> r == Step([EnemyIdled(s)], wasOnObstacle)
    ensures !s.ObstacleSprite? && !s.EnemySprite? ==> r == Step([], wasOnObstacle)
  {
    match s
    case ObstacleSprite(_) => Step(if wasOnObstacle then [FallRequested] else [], false)
    case EnemySprite(_) => Step([EnemyIdled(s)], wasOnObstacle)
    case _ => Step([], wasOnObstacle)
  }

  /** `beginCollision`; throws only for a power-up whose kind has no strategy. */
  function BeginStep(s: Sprite, o: Oracle, wasOnObstacle: bool, factory: PowerUpStrategyFactory): (r: Result<Step, Exception>)
    ensures r.Failure? <==> s.PowerUpSprite? && factory.CreatePowerUpStrategy(s.kind).Failure?
    ensures r.Success? ==> NoEnd(r.value.reactions)
    ensures s.ObstacleSprite? ==>
      && r.Success?
      && r.value.wasOnObstacle == (wasOnObstacle || o.collisionSide(s) == BOTTOM)
      && r.value.reactions == [SideStrategyApplied(o.collisionSide(s), s)]
    ensures s.EnemySprite? ==>
      && r.Success?
      && |r.value.reactions| == 2 && r.value.reactions[0] == EnemyAttacked(s)
      && (EnemyDied(s) in r.value.reactions <==> o.swordConsumed(s))
      && (HeroDied in r.value.reactions <==> !o.swordConsumed(s))
    ensures s.PowerUpSprite? && r.Success? ==>
      && (r.value.reactions == [PowerUpHidden(s)] || r.value.reactions == [])
      && (PowerUpHidden(s) in r.value.reactions <==> o.collects(s))
    ensures !s.ObstacleSprite? && r.Success? ==> r.value.wasOnObstacle == wasOnObstacle
    ensures s.OtherSprite? ==> r == Success(Step([], wasOnObstacle))
  {
    match s
    case ObstacleSprite(_) =>
      var side := o.collisionSide(s);
      Success(Step([SideStrategyApplied(side, s)], wasOnObstacle || side == BOTTOM))
    case EnemySprite(_) =>
      Success(Step([EnemyAttacked(s), if o.swordConsumed(s) then EnemyDied(s) else HeroDied], wasOnObstacle))
    case PowerUpSprite(_, kind) =>
      if factory.CreatePowerUpStrategy(kind).Failure? then Failure(factory.CreatePowerUpStrategy(kind).error)
      else Success(Step(if o.collects(s) then [PowerUpHidden(s)] else [], wasOnObstacle))
    case OtherSprite(_) => Success(Step([], wasOnObstacle))
  }

  /** The end phase over the sprites that collided last call, in their order. */
  function EndAll(previous: seq<Sprite>, o: Oracle, wasOnObstacle: bool): Step
    decreases |previous|
  {
    if previous == [] then Step([], wasOnObstacle)
    else
      var before := EndAll(previous[..|previous| - 1], o, wasOnObstacle);
      var s := previous[|previous| - 1];
      if o.areColliding(s) then before
      else
        var step := EndStep(s, before.wasOnObstacle);
        Step(before.reactions + step.reactions, step.wasOnObstacle)
  }

  /** The begin phase: reactions, flag, the colliding sprites kept, and the exception that stopped it, if any. */
  datatype Pass = Pass(reactions: seq<Reaction>, wasOnObstacle: bool, colliding: seq<Sprite>, thrown: Option<Exception>)

  function BeginAll(sprites: seq<Sprite>, o: Oracle, wasOnObstacle: bool, factory: PowerUpStrategyFactory): Pass
    decreases |sprites|
  {
    if sprites == [] then Pass([], wasOnObstacle, [], None)
    else
      var before := BeginAll(sprites[..|sprites| - 1], o, wasOnObstacle, factory);
      var s := sprites[|sprites| - 1];
      if before.thrown.Some? || !o.areColliding(s) then before
      else
        match BeginStep(s, o, before.wasOnObstacle, factory)
        case Failure(e) => before.(thrown := Some(e))
        case Success(step) => Pass(before.reactions + step.reactions, step.wasOnObstacle, before.colliding + [s], None)
  }

  /** What one `checkCollision` call does. */
  datatype Outcome = Outcome(trace: seq<Reaction>, wasOnObstacle: bool, collidingSprites: seq<Sprite>, thrown: Option<Exception>)

  function Checked(previous: seq<Sprite>, sprites: seq<Sprite>, o: Oracle, wasOnObstacle: bool,
                   factory: PowerUpStrategyFactory): Outcome
  {
    var ends := EndAll(previous, o, wasOnObstacle);
    var begins := BeginAll(sprites, o, ends.wasOnObstacle, factory);
    Outcome(ends.reactions + begins.reactions, begins.wasOnObstacle,
            if begins.thrown.None? then begins.colliding else previous, begins.thrown)
  }

  /** The sprites of `s` that satisfy `p`, in order. */
  function Filter(s: seq<Sprite>, p: Sprite -> bool): (r: seq<Sprite>)
    decreases |s|
  {
    if s == [] then []
    else Filter(s[..|s| - 1], p) + (if p(s[|s| - 1]) then [s[|s| - 1]] else [])
  }

  /** Occurrences of `x` in `rs`. */
  function Count(rs: seq<Reaction>, x: Reaction): nat
    decreases |rs|
  {
    if rs == [] then 0 else Count(rs[..|rs| - 1], x) + (if rs[|rs| - 1] == x then 1 else 0)
  }

  lemma {:induction false} CountAppend(a: seq<Reaction>, b: seq<Reaction>, x: Reaction)
    ensures Count(a + b, x) == Count(a, x) + Count(b, x)
    decreases |b|
  {
    if b != [] {
      assert (a + b)[..|a + b| - 1] == a + b[..|b| - 1];
      CountAppend(a, b[..|b| - 1], x);
    } else {
      assert a + b == a;
    }
  }

  lemma {:induction false} CountAbsent(rs: seq<Reaction>, x: Reaction)
    requires x !in rs
    ensures Count(rs, x) == 0
    decreases |rs|
  {
    if rs != [] {
      CountAbsent(rs[..|rs| - 1], x);
    }
  }

  lemma {:induction false} CountPresent(rs: seq<Reaction>, x: Reaction)
    requires x in rs
    ensures Count(rs, x) > 0
    decreases |rs|
  {
    if rs[|rs| - 1] != x {
      assert rs == rs[..|rs| - 1] + [rs[|rs| - 1]];
      CountPresent(rs[..|rs| - 1], x);
    }
  }

  function B2I(b: bool): nat { if b then 1 else 0 }

  /** The end phase asks for Fall at most once: one Fall is owed per set flag, and paying it clears the flag. */
  lemma {:induction false} EndAllFallsAtMostOnce(previous: seq<Sprite>, o: Oracle, flag: bool)
    ensures var e := EndAll(previous, o, flag);
      Count(e.reactions, FallRequested) + B2I(e.wasOnObstacle) == B2I(flag)
    decreases |previous|
  {
    if previous != [] {
      var before := EndAll(previous[..|previous| - 1], o, flag);
      EndAllFallsAtMostOnce(previous[..|previous| - 1], o, flag);
      var s := previous[|previous| - 1];
      if !o.areColliding(s) {
        var step := EndStep(s, before.wasOnObstacle);
        CountAppend(before.reactions, step.reactions, FallRequested);
        if !s.ObstacleSprite? {
          CountAbsent(step.reactions, FallRequested);
        }
      }
    }
  }

  /** Every end reaction is for a sprite that collided last call and does not collide now. */
  lemma EndAllOnlyDeparted(previous: seq<Sprite>, o: Oracle, flag: bool)
    ensures var e := EndAll(previous, o, flag);
      && AllEnd(e.reactions)
      && (forall s :: EnemyIdled(s) in e.reactions ==> s in previous && !o.areColliding(s))
      && (forall s :: s in previous && s.EnemySprite? && !o.areColliding(s) ==> EnemyIdled(s) in e.reactions)
      && (FallRequested in e.reactions ==> flag)
      && (e.wasOnObstacle <==> flag && forall s :: s in previous && s.ObstacleSprite? ==> o.areColliding(s))
  {
    var e := EndAll(previous, o, flag);
    EndAllFallsAtMostOnce(previous, o, flag);
    if FallRequested in e.reactions {
      CountPresent(e.reactions, FallRequested);
    }
    EndAllHasOnlyEndReactions(previous, o, flag);
    EndAllIdlesDeparted(previous, o, flag);
    EndAllFlag(previous, o, flag);
  }

  lemma {:induction false} EndAllHasOnlyEndReactions(previous: seq<Sprite>, o: Oracle, flag: bool)
    ensures AllEnd(EndAll(previous, o, flag).reactions)
    decreases |previous|
  {
    if previous != [] {
      var init := previous[..|previous| - 1];
      EndAllHasOnlyEndReactions(init, o, flag);
      var before := EndAll(init, o, flag);
      var s := previous[|previous| - 1];
      if !o.areColliding(s) {
        var step := EndStep(s, before.wasOnObstacle);
        var rs := before.reactions + step.reactions;
        forall i | 0 <= i < |rs| ensures IsEndReaction(rs[i]) {
          if i >= |before.reactions| {
            assert rs[i] == step.reactions[i - |before.reactions|];
          } else {
            assert rs[i] == before.reactions[i];
          }
        }
      }
    }
  }

  lemma {:induction false} EndAllIdlesDeparted(previous: seq<Sprite>, o: Oracle, flag: bool)
    ensures forall s :: EnemyIdled(s) in EndAll(previous, o, flag).reactions ==> s in previous && !o.areColliding(s)
    ensures forall s :: s in previous && s.EnemySprite? && !o.areColliding(s) ==> EnemyIdled(s) in EndAll(previous, o, flag).reactions
    decreases |previous|
  {
    if previous != [] {
      var init := previous[..|previous| - 1];
      var last := previous[|previous| - 1];
      EndAllIdlesDeparted(init, o, flag);
      assert previous == init + [last];
      var before := EndAll(init, o, flag);
      var after := EndAll(previous, o, flag);
      if !o.areColliding(last) {
        var step := EndStep(last, before.wasOnObstacle);
        assert after.reactions == before.reactions + step.reactions;
        if last.EnemySprite? {
          assert after.reactions[|before.reactions|] == EnemyIdled(last);
        }
      }
      forall s | s in previous && s.EnemySprite? && !o.areColliding(s)
        ensures EnemyIdled(s) in after.reactions
      {
        if s != last {
          assert s in init;
          assert EnemyIdled(s) in before.reactions;
        }
      }
    }
  }

  lemma {:induction false} EndAllFlag(previous: seq<Sprite>, o: Oracle, flag: bool)
    ensures EndAll(previous, o, flag).wasOnObstacle
      <==> flag && forall s :: s in previous && s.ObstacleSprite? ==> o.areColliding(s)
    decreases |previous|
  {
    if previous != [] {
      var init := previous[..|previous| - 1];
      EndAllFlag(init, o, flag);
      assert previous == init + [previous[|previous| - 1]];
    }
  }

  /** No begin reaction is an end reaction, and the exception (if any) is the unknown power-up kind's. */
  lemma {:induction false} BeginAllHasNoEndReactions(sprites: seq<Sprite>, o: Oracle, flag: bool, factory: PowerUpStrategyFactory)
    ensures NoEnd(BeginAll(sprites, o, flag, factory).reactions)
    decreases |sprites|
  {
    if sprites != [] {
      var init := sprites[..|sprites| - 1];
      var last := sprites[|sprites| - 1];
      BeginAllHasNoEndReactions(init, o, flag, factory);
      var before := BeginAll(init, o, flag, factory);
      if before.thrown.None? && o.areColliding(last) {
        var r := BeginStep(last, o, before.wasOnObstacle, factory);
        if r.Success? {
          var rs := before.reactions + r.value.reactions;
          forall i | 0 <= i < |rs| ensures !IsEndReaction(rs[i]) {
            if i >= |before.reactions| {
              assert rs[i] == r.value.reactions[i - |before.reactions|];
            } else {
              assert rs[i] == before.reactions[i];
            }
          }
        }
      }
    }
  }

  /**
   * Without an exception, the colliding list becomes exactly the input sprites
   * that collide, in input order; after an exception it is left as it was.
   */
  lemma {:induction false} BeginAllKeepsColliding(sprites: seq<Sprite>, o: Oracle, flag: bool, factory: PowerUpStrategyFactory)
    ensures var b := BeginAll(sprites, o, flag, factory);
      b.thrown.None? ==> b.colliding == Filter(sprites, o.areColliding)
    decreases |sprites|
  {
    if sprites != [] {
      BeginAllKeepsColliding(sprites[..|sprites| - 1], o, flag, factory);
      var before := BeginAll(sprites[..|sprites| - 1], o, flag, factory);
      if before.thrown.Some? {
        BeginAllStaysThrown(sprites[..|sprites| - 1], [sprites[|sprites| - 1]], o, flag, factory);
        assert sprites[..|sprites| - 1] + [sprites[|sprites| - 1]] == sprites;
      }
    }
  }

  /** Once a begin reaction throws, later sprites are not looked at. */
  lemma {:induction false} BeginAllStaysThrown(a: seq<Sprite>, rest: seq<Sprite>, o: Oracle, flag: bool, factory: PowerUpStrategyFactory)
    requires BeginAll(a, o, flag, factory).thrown.Some?
    ensures BeginAll(a + rest, o, flag, factory) == BeginAll(a, o, flag, factory)
    decreases |rest|
  {
    if rest != [] {
      assert (a + rest)[..|a + rest| - 1] == a + rest[..|rest| - 1];
      BeginAllStaysThrown(a, rest[..|rest| - 1], o, flag, factory);
    } else {
      assert a + rest == a;
    }
  }

  /**
   * Without an exception, every colliding sprite begins a collision, whether or
   * not it collided last call: obstacles get their side strategy, enemies are
   * attacked, collected power-ups are hidden; and only colliding sprites do.
   */
  lemma {:induction false} BeginAllReachesEveryColliding(sprites: seq<Sprite>, o: Oracle, flag: bool, factory: PowerUpStrategyFactory)
    ensures var b := BeginAll(sprites, o, flag, factory);
      && (b.thrown.None? ==> forall s :: s in sprites && o.areColliding(s) && s.ObstacleSprite? ==>
            SideStrategyApplied(o.collisionSide(s), s) in b.reactions)
      && (b.thrown.None? ==> forall s :: s in sprites && o.areColliding(s) && s.EnemySprite? ==>
            EnemyAttacked(s) in b.reactions)
      && (b.thrown.None? ==> forall s :: s in sprites && o.areColliding(s) && s.PowerUpSprite? && o.collects(s) ==>
            PowerUpHidden(s) in b.reactions)
      && (forall s :: PowerUpHidden(s) in b.reactions ==> s in sprites && o.areColliding(s) && o.collects(s))
      && (forall s :: EnemyAttacked(s) in b.reactions ==> s in sprites && o.areColliding(s))
    decreases |sprites|
  {
    if sprites != [] {
      var init := sprites[..|sprites| - 1];
      var last := sprites[|sprites| - 1];
      BeginAllReachesEveryColliding(init, o, flag, factory);
      assert sprites == init + [last];
      var before := BeginAll(init, o, flag, factory);
      if before.thrown.None? && o.areColliding(last) {
        var r := BeginStep(last, o, before.wasOnObstacle, factory);
        if r.Success? && last.EnemySprite? {
          assert r.value.reactions[0] == EnemyAttacked(last);
        }
      }
    }
  }

  /**
   * After the begin phase the flag is set exactly when it was set before or
   * some colliding obstacle (up to an exception) touches the hero's BOTTOM.
   */
  lemma {:induction false} BeginAllFlag(sprites: seq<Sprite>, o: Oracle, flag: bool, factory: PowerUpStrategyFactory)
    ensures var b := BeginAll(sprites, o, flag, factory);
      && (flag ==> b.wasOnObstacle)
      && (b.thrown.None? ==>
            (b.wasOnObstacle <==> flag || exists s :: s in sprites && s.ObstacleSprite? && o.areColliding(s) && o.collisionSide(s) == BOTTOM))
    decreases |sprites|
  {
    if sprites != [] {
      var init := sprites[..|sprites| - 1];
      var last := sprites[|sprites| - 1];
      BeginAllFlag(init, o, flag, factory);
      assert sprites == init + [last];
      var before := BeginAll(init, o, flag, factory);
      if before.thrown.Some? {
        BeginAllStaysThrown(init, [last], o, flag, factory);
      }
    }
  }

  /** At most one Fall request per call, and only if the flag was set when the call started. */
  lemma FallAtMostOncePerCall(previous: seq<Sprite>, sprites: seq<Sprite>, o: Oracle, flag: bool, factory: PowerUpStrategyFactory)
    ensures Count(Checked(previous, sprites, o, flag, factory).trace, FallRequested) <= B2I(flag)
  {
    var ends := EndAll(previous, o, flag);
    var begins := BeginAll(sprites, o, ends.wasOnObstacle, factory);
    EndAllFallsAtMostOnce(previous, o, flag);
    BeginAllHasNoEndReactions(sprites, o, ends.wasOnObstacle, factory);
    CountAppend(ends.reactions, begins.reactions, FallRequested);
    assert FallRequested !in begins.reactions by {
      forall i | 0 <= i < |begins.reactions| ensures begins.reactions[i] != FallRequested {
        assert !IsEndReaction(begins.reactions[i]);
      }
    }
    CountAbsent(begins.reactions, FallRequested);
  }

  /** All end reactions come before any begin reaction. */
  lemma EndsPrecedeBegins(previous: seq<Sprite>, sprites: seq<Sprite>, o: Oracle, flag: bool, factory: PowerUpStrategyFactory)
    ensures var t := Checked(previous, sprites, o, flag, factory).trace;
      forall i, j :: 0 <= i < j < |t| && IsEndReaction(t[j]) ==> IsEndReaction(t[i])
  {
    var ends := EndAll(previous, o, flag);
    var begins := BeginAll(sprites, o, ends.wasOnObstacle, factory);
    EndAllOnlyDeparted(previous, o, flag);
    BeginAllHasNoEndReactions(sprites, o, ends.wasOnObstacle, factory);
    var t := ends.reactions + begins.reactions;
    forall j | |ends.reactions| <= j < |t| ensures !IsEndReaction(t[j]) {
      assert t[j] == begins.reactions[j - |ends.reactions|];
    }
    forall i, j | 0 <= i < j < |t| && IsEndReaction(t[j]) ensures IsEndReaction(t[i]) {
      if j < |ends.reactions| {
        assert t[i] == ends.reactions[i];
      }
    }
  }

  /** After a call that did not throw, `collidingSprites` is exactly the colliding inputs, in input order. */
  lemma CollidingSpritesAfterCall(previous: seq<Sprite>, sprites: seq<Sprite>, o: Oracle, flag: bool, factory: PowerUpStrategyFactory)
    ensures var c := Checked(previous, sprites, o, flag, factory);
      && (c.thrown.None? ==> c.collidingSprites == Filter(sprites, o.areColliding))
      && (c.thrown.Some? ==> c.collidingSprites == previous)
  {
    BeginAllKeepsColliding(sprites, o, EndAll(previous, o, flag).wasOnObstacle, factory);
  }

  /** A call throws exactly when a colliding power-up has a kind no strategy is registered for. */
  lemma {:induction false} ThrowsOnlyForUnknownPowerUp(sprites: seq<Sprite>, o: Oracle, flag: bool, factory: PowerUpStrategyFactory)
    ensures BeginAll(sprites, o, flag, factory).thrown.Some? <==>
      exists s :: s in sprites && o.areColliding(s) && s.PowerUpSprite? && factory.CreatePowerUpStrategy(s.kind).Failure?
    decreases |sprites|
  {
    if sprites != [] {
      var init := sprites[..|sprites| - 1];
      var last := sprites[|sprites| - 1];
      ThrowsOnlyForUnknownPowerUp(init, o, flag, factory);
      assert sprites == init + [last];
    }
  }

  class CollisionManager {
    var wasOnObstacle: bool
    var collidingSprites: seq<Sprite>
    const powerUpStrategyFactory: PowerUpStrategyFactory

    constructor (hero: Hero)
      ensures !wasOnObstacle && collidingSprites == []
      ensures powerUpStrategyFactory.hero == hero
    {
      collidingSprites := [];
      powerUpStrategyFactory := new PowerUpStrategyFactory(hero);
      wasOnObstacle := false;
    }

    /** `checkCollision`: the end phase, then the begin phase; an exception leaves `collidingSprites` as it was. */
    method CheckCollision(sprites: seq<Sprite>, o: Oracle) returns (thrown: Option<Exception>, trace: seq<Reaction>)
      modifies this
      ensures var c := Checked(old(collidingSprites), sprites, o, old(wasOnObstacle), powerUpStrategyFactory);
        && trace == c.trace && thrown == c.thrown
        && wasOnObstacle == c.wasOnObstacle && collidingSprites == c.collidingSprites
    {
      var ended := EndCollisions(o);
      var began, colliding;
      thrown, began, colliding := BeginCollisions(sprites, o);
      trace := ended + began;
      if thrown.None? {
        collidingSprites := colliding;
      }
    }

    /** The end phase: every sprite that collided last call and no longer does, in that order. */
    method EndCollisions(o: Oracle) returns (trace: seq<Reaction>)
      modifies this`wasOnObstacle
      ensures Step(trace, wasOnObstacle) == EndAll(collidingSprites, o, old(wasOnObstacle))
    {
      ghost var flag := wasOnObstacle;
      trace := [];
      for i := 0 to |collidingSprites|
        invariant Step(trace, wasOnObstacle) == EndAll(collidingSprites[..i], o, flag)
      {
        assert collidingSprites[..i + 1][..i] == collidingSprites[..i];
        var sprite := collidingSprites[i];
        if !o.areColliding(sprite) {
          var ended := EndCollision(sprite);
          trace := trace + ended;
        }
      }
      assert collidingSprites[..|collidingSprites|] == collidingSprites;
    }

    /** The begin phase, up to the first exception; returns the colliding sprites it collected. */
    method BeginCollisions(sprites: seq<Sprite>, o: Oracle)
      returns (thrown: Option<Exception>, trace: seq<Reaction>, colliding: seq<Sprite>)
      modifies this`wasOnObstacle
      ensures Pass(trace, wasOnObstacle, colliding, thrown) == BeginAll(sprites, o, old(wasOnObstacle), powerUpStrategyFactory)
    {
      ghost var flag := wasOnObstacle;
      trace, colliding, thrown := [], [], None;
      for i := 0 to |sprites|
        invariant Pass(trace, wasOnObstacle, colliding, None) == BeginAll(sprites[..i], o, flag, powerUpStrategyFactory)
      {
        assert sprites[..i + 1][..i] == sprites[..i];
        var sprite := sprites[i];
        if o.areColliding(sprite) {
          var began := BeginCollision(sprite, o);
          if began.Failure? {
            thrown := Some(began.error);
            BeginAllStaysThrown(sprites[..i + 1], sprites[i + 1..], o, flag, powerUpStrategyFactory);
            assert sprites[..i + 1] + sprites[i + 1..] == sprites;
            return;
          }
          trace := trace + began.value;
          colliding := colliding + [sprite];
        }
      }
      assert sprites[..|sprites|] == sprites;
    }

    /** `beginCollision`. */
    method BeginCollision(sprite: Sprite, o: Oracle) returns (r: Result<seq<Reaction>, Exception>)
      modifies this`wasOnObstacle
      ensures var b := BeginStep(sprite, o, old(wasOnObstacle), powerUpStrategyFactory);
        && (b.Failure? ==> r == Failure(b.error) && wasOnObstacle == old(wasOnObstacle))
        && (b.Success? ==> r == Success(b.value.reactions) && wasOnObstacle == b.value.wasOnObstacle)
    {
      match sprite
      case ObstacleSprite(_) =>
        var side := o.collisionSide(sprite);
        if side == BOTTOM {
          wasOnObstacle := true;
        }
        r := Success([SideStrategyApplied(side, sprite)]);
      case EnemySprite(_) =>
        var swordStrategy := powerUpStrategyFactory.CreatePowerUpStrategy(SWORD);
        assert swordStrategy.Success?;
        var killed := o.swordConsumed(sprite);
        if killed {
          r := Success([EnemyAttacked(sprite), EnemyDied(sprite)]);
        } else {
          r := Success([EnemyAttacked(sprite), HeroDied]);
        }
      case PowerUpSprite(_, kind) =>
        var strategy := powerUpStrategyFactory.CreatePowerUpStrategy(kind);
        if strategy.Failure? {
          return Failure(strategy.error);
        }
        var collected := o.collects(sprite);
        r := Success(if collected then [PowerUpHidden(sprite)] else []);
      case OtherSprite(_) =>
        r := Success([]);
    }

    /** `endCollision`. */
    method EndCollision(sprite: Sprite) returns (reactions: seq<Reaction>)
      modifies this`wasOnObstacle
      ensures Step(reactions, wasOnObstacle) == EndStep(sprite, old(wasOnObstacle))
    {
      reactions := [];
      match sprite
      case ObstacleSprite(_) =>
        if wasOnObstacle {
          reactions := [FallRequested];
        }
        wasOnObstacle := false;
      case EnemySprite(_) =>
        reactions := [EnemyIdled(sprite)];
      case _ =>
    }
  }
}
