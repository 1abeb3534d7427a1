/**
 * `SpawnableManager`: decides which obstacle type may follow the last one so
 * that the hero can always get past, places new obstacles at the right edge of
 * the viewport, and drops obstacles that scrolled out of sight.
 *
 * Every random draw is a parameter: the fixed-range ones (`TypeDraws`) carry
 * their range as a precondition, the ones whose range depends on measures go
 * through `JavaLang.NextInt`, which throws on an empty range.
 */
module ObstaclesManager {
  import opened Wrappers
  import opened JavaLang
  import opened Geometry
  import opened Spawnables

  datatype SpawnableType = Wolf | Golem | Witch | Jumpable | JumpableSlidable | Slidable

  /** `SpawnableTypes.values()`. */
  const SpawnableTypes: seq<SpawnableType> := [Wolf, Golem, Witch, Jumpable, JumpableSlidable, Slidable]

  /** What the choice and the placement read of the last obstacle generated. */
  datatype LastObstacle = LastObstacle(box: Box, visible: bool, kind: SpawnableType)

  /**
   * The draws `getAppropriateSpawnableType` may make: a type index, the
   * `nextInt(-1, 2)` after a Jumpable, the coin after a Wolf or Golem, the raw
   * `nextInt()` of the spawn roll, and the type index after it.
   */
  datatype TypeDraws = TypeDraws(anyIndex: int, ternary: int, coin: bool, spawnRoll: int, spawnIndex: int)

  predicate DrawsInRange(d: TypeDraws) {
    && 0 <= d.anyIndex < |SpawnableTypes|
    && -1 <= d.ternary < 2
    && IsInt32(d.spawnRoll)
    && 0 <= d.spawnIndex < |SpawnableTypes|
  }

  /** Free space between the last obstacle's right side and the viewport's right edge. */
  function Distance(viewportWidth: int, last: Box): int {
    viewportWidth - Right(last)
  }

  /** Whether a new obstacle may appear now, and of which type; `None` is Java's `null`. */
  function AppropriateType(last: Option<LastObstacle>, viewportWidth: int, standardWidth: int,
                           multiplier: int, spawnProbability: int, d: TypeDraws): (r: Option<SpawnableType>)
    requires DrawsInRange(d) && spawnProbability >= 1
    ensures last.None? || !last.value.visible ==> r.Some?
    ensures last.Some? && last.value.visible && r.Some? ==>
      var distance := Distance(viewportWidth, last.value.box);
      distance == 0 || distance >= standardWidth * multiplier
  {
    if last.None? || !last.value.visible then Some(SpawnableTypes[d.anyIndex])
    else
      var distance := Distance(viewportWidth, last.value.box);
      var kind := last.value.kind;
      if distance < 0 then None
      else if distance == 0 && kind == Jumpable then
        if d.ternary == 0 then None else if d.ternary > 0 then Some(Jumpable) else Some(Slidable)
      else if distance == 0 && (kind == JumpableSlidable || kind == Slidable) then None
      else if distance == 0 && (kind == Wolf || kind == Golem) && d.coin then Some(Jumpable)
      else if distance < standardWidth * multiplier then None
      else if Rem(d.spawnRoll, spawnProbability) == 0 then Some(SpawnableTypes[d.spawnIndex])
      else None
  }

  /** With nothing visible on screen the type index picks the type, whatever else was drawn. */
  lemma EmptyScreenAnyType(last: Option<LastObstacle>, viewportWidth: int, standardWidth: int,
                           multiplier: int, spawnProbability: int, d: TypeDraws, t: SpawnableType)
    requires DrawsInRange(d) && spawnProbability >= 1
    requires last.None? || !last.value.visible
    ensures exists i :: (0 <= i < |SpawnableTypes| && SpawnableTypes[i] == t &&
      AppropriateType(last, viewportWidth, standardWidth, multiplier, spawnProbability, d.(anyIndex := i)) == Some(t))
  {
    var i := match t
      case Wolf => 0 case Golem => 1 case Witch => 2
      case Jumpable => 3 case JumpableSlidable => 4 case Slidable => 5;
    assert SpawnableTypes[i] == t;
  }

  /** While the last obstacle still sticks out past the right edge, nothing spawns. */
  lemma NothingWhileLastEntering(last: LastObstacle, viewportWidth: int, standardWidth: int,
                                 multiplier: int, spawnProbability: int, d: TypeDraws)
    requires DrawsInRange(d) && spawnProbability >= 1
    requires last.visible && Distance(viewportWidth, last.box) < 0
    ensures AppropriateType(Some(last), viewportWidth, standardWidth, multiplier, spawnProbability, d).None?
  {
  }

  /**
   * Right against the last obstacle (distance 0): a Jumpable may be followed by
   * a Slidable (draw -1), nothing (0) or another Jumpable (1); a Slidable or
   * JumpableSlidable by nothing; a Wolf or Golem by a Jumpable on heads.
   */
  lemma ChoiceAtContact(last: LastObstacle, viewportWidth: int, standardWidth: int,
                        multiplier: int, spawnProbability: int, d: TypeDraws)
    requires DrawsInRange(d) && spawnProbability >= 1
    requires last.visible && Distance(viewportWidth, last.box) == 0
    ensures var r := AppropriateType(Some(last), viewportWidth, standardWidth, multiplier, spawnProbability, d);
      && (last.kind == Jumpable ==>
            r == (if d.ternary == -1 then Some(Slidable) else if d.ternary == 0 then None else Some(Jumpable)))
      && (last.kind == Slidable || last.kind == JumpableSlidable ==> r.None?)
      && ((last.kind == Wolf || last.kind == Golem) && d.coin ==> r == Some(Jumpable))
      && (r.Some? && last.kind != Jumpable && !((last.kind == Wolf || last.kind == Golem) && d.coin) ==>
            standardWidth * multiplier <= 0)
  {
  }

  /**
   * Past the minimum gap the spawn roll decides: a type is chosen exactly when
   * Java's `nextInt() % spawnProbability` is zero, which is whenever
   * `spawnProbability` is 1.
   */
  lemma SpawnRollPastTheGap(last: LastObstacle, viewportWidth: int, standardWidth: int,
                            multiplier: int, spawnProbability: int, d: TypeDraws)
    requires DrawsInRange(d) && spawnProbability >= 1
    requires last.visible && Distance(viewportWidth, last.box) > 0
    requires Distance(viewportWidth, last.box) >= standardWidth * multiplier
    ensures var r := AppropriateType(Some(last), viewportWidth, standardWidth, multiplier, spawnProbability, d);
      && (r.Some? <==> d.spawnRoll % spawnProbability == 0)
      && (r.Some? ==> r.value == SpawnableTypes[d.spawnIndex])
      && (spawnProbability == 1 ==> r.Some?)
  {
  }

  /** Short of the minimum gap, and not touching, nothing spawns. */
  lemma NothingInsideTheGap(last: LastObstacle, viewportWidth: int, standardWidth: int,
                            multiplier: int, spawnProbability: int, d: TypeDraws)
    requires DrawsInRange(d) && spawnProbability >= 1
    requires last.visible && 0 < Distance(viewportWidth, last.box) < standardWidth * multiplier
    ensures AppropriateType(Some(last), viewportWidth, standardWidth, multiplier, spawnProbability, d).None?
  {
  }

  /** A Slidable right after a Jumpable that still touches the right edge sits on top of it. */
  predicate ChainedAfterJumpable(last: Option<LastObstacle>, viewportWidth: int) {
    last.Some? && last.value.kind == Jumpable && Right(last.value.box) >= viewportWidth - 1
  }

  /** The y coordinate `setPosition` gives a new obstacle of type `kind`, or the exception of an empty draw range. */
  function PlacementY(kind: SpawnableType, last: Option<LastObstacle>, viewportWidth: int, standardHeight: nat,
                      jumpMaxElevation: nat, obstacleHeight: int, offset: int, seed: int): (r: Result<int, Exception>)
  {
    match kind
    case Slidable =>
      var drawn := NextInt(standardHeight / 2, standardHeight - 1, seed);
      if drawn.Failure? then Failure(drawn.error)
      else if ChainedAfterJumpable(last, viewportWidth) then
        Success(drawn.value + (last.value.box.height + last.value.box.y - offset) + offset)
      else Success(drawn.value + offset)
    case JumpableSlidable =>
      var drawn := NextInt(standardHeight / 2, standardHeight / 2 + jumpMaxElevation - obstacleHeight, seed);
      if drawn.Failure? then Failure(drawn.error) else Success(drawn.value + offset)
    case _ => Success(offset)
  }

  /** Enemies and jumpable obstacles stand on the ground. */
  lemma GroundTypesOnGround(kind: SpawnableType, last: Option<LastObstacle>, viewportWidth: int, standardHeight: nat,
                            jumpMaxElevation: nat, obstacleHeight: int, offset: int, seed: int)
    requires kind in {Wolf, Golem, Witch, Jumpable}
    ensures PlacementY(kind, last, viewportWidth, standardHeight, jumpMaxElevation, obstacleHeight, offset, seed) == Success(offset)
  {
  }

  /**
   * A Slidable floats between half and all-but-one of the hero's standard
   * height above its base: the ground, or the top of a Jumpable it is chained
   * to. Too short a hero (standard height 2 or less) makes the draw throw.
   */
  lemma SlidableBand(last: Option<LastObstacle>, viewportWidth: int, standardHeight: nat,
                     jumpMaxElevation: nat, obstacleHeight: int, offset: int, seed: int)
    ensures var r := PlacementY(Slidable, last, viewportWidth, standardHeight, jumpMaxElevation, obstacleHeight, offset, seed);
      var base := if ChainedAfterJumpable(last, viewportWidth) then Top(last.value.box) else offset;
      && (r.Failure? <==> standardHeight <= 2)
      && (r.Success? ==> base + standardHeight / 2 <= r.value < base + standardHeight - 1)
  {
  }

  /**
   * A JumpableSlidable leaves half the hero's standard height free under it and
   * keeps its top below that plus the hero's maximum jump elevation; it throws
   * when the obstacle is at least as tall as that elevation.
   */
  lemma JumpableSlidableBand(last: Option<LastObstacle>, viewportWidth: int, standardHeight: nat,
                             jumpMaxElevation: nat, obstacleHeight: int, offset: int, seed: int)
    ensures var r := PlacementY(JumpableSlidable, last, viewportWidth, standardHeight, jumpMaxElevation, obstacleHeight, offset, seed);
      && (r.Failure? <==> jumpMaxElevation <= obstacleHeight)
      && (r.Success? ==>
            && offset + standardHeight / 2 <= r.value
            && r.value + obstacleHeight < offset + standardHeight / 2 + jumpMaxElevation)
  {
  }

  /** Every height of a Slidable's band is a possible placement. */
  lemma SlidableReachesEveryHeight(last: Option<LastObstacle>, viewportWidth: int, standardHeight: nat,
                                   jumpMaxElevation: nat, obstacleHeight: int, offset: int, y: int)
    requires !ChainedAfterJumpable(last, viewportWidth)
    requires offset + standardHeight / 2 <= y < offset + standardHeight - 1
    ensures PlacementY(Slidable, last, viewportWidth, standardHeight, jumpMaxElevation, obstacleHeight, offset,
                       y - offset - standardHeight / 2) == Success(y)
  {
    NextIntReachesEveryValue(standardHeight / 2, standardHeight - 1, y - offset);
  }

  /** `obstacles.remove(o)`: drops the first occurrence of `o`, if any. */
  function RemoveFirst(s: seq<Obstacle>, o: Obstacle): (r: seq<Obstacle>)
    ensures multiset(r) == multiset(s) - multiset{o}
    ensures o !in s ==> r == s
  {
    if s == [] then []
    else if s[0] == o then
      assert s == [s[0]] + s[1..];
      s[1..]
    else
      assert s == [s[0]] + s[1..];
      [s[0]] + RemoveFirst(s[1..], o)
  }

  /** Removing each of `rs` in turn. */
  function RemoveEach(s: seq<Obstacle>, rs: seq<Obstacle>): seq<Obstacle>
    decreases |rs|
  {
    if rs == [] then s else RemoveFirst(RemoveEach(s, rs[..|rs| - 1]), rs[|rs| - 1])
  }

  lemma {:induction false} RemoveEachMultiset(s: seq<Obstacle>, rs: seq<Obstacle>)
    ensures multiset(RemoveEach(s, rs)) == multiset(s) - multiset(rs)
    decreases |rs|
  {
    if rs != [] {
      var init, last := rs[..|rs| - 1], rs[|rs| - 1];
      RemoveEachMultiset(s, init);
      assert rs == init + [last];
      assert multiset(rs) == multiset(init) + multiset{last};
      DifferenceOfSum(multiset(s), multiset(init), multiset{last});
    }
  }

  lemma DifferenceOfSum(a: multiset<Obstacle>, b: multiset<Obstacle>, c: multiset<Obstacle>)
    ensures (a - b) - c == a - (b + c)
  {
    forall x ensures ((a - b) - c)[x] == (a - (b + c))[x] {
    }
  }

  /** Removing every element of a list from it, one at a time, empties it, duplicates included. */
  lemma RemovingEveryElementEmpties(s: seq<Obstacle>)
    ensures RemoveEach(s, s) == []
  {
    RemoveEachMultiset(s, s);
    assert |multiset(RemoveEach(s, s))| == 0;
  }

  /** The `LinkedList` of obstacles on screen. */
  class ObstacleList {
    var elements: seq<Obstacle>

    constructor (elements: seq<Obstacle>)
      ensures this.elements == elements
    {
      this.elements := elements;
    }

    method Remove(o: Obstacle) returns (removed: bool)
      modifies this
      ensures elements == RemoveFirst(old(elements), o) && removed == (o in old(elements))
    {
      removed := o in elements;
      elements := RemoveFirst(elements, o);
    }
  }

  class SpawnableManager {
    var spawnProbability: int
    var minimumDistanceMultiplier: int
    /** The ground's y coordinate, where obstacles' positions start from. */
    const offset: int
    /** The measures of the hero that the gaps and bands are based on. */
    const standardWidth: nat
    const standardHeight: nat
    const jumpMaxElevation: nat
    const heroWidth: nat
    var lastObstacle: Obstacle?
    var lastObstacleType: Option<SpawnableType>

    ghost predicate Valid()
      reads this
    {
      && spawnProbability >= 1
      && minimumDistanceMultiplier >= 1
      && (lastObstacle == null <==> lastObstacleType.None?)
    }

    constructor (standardWidth: nat, standardHeight: nat, jumpMaxElevation: nat, heroWidth: nat, groundY: int)
      ensures Valid()
      ensures spawnProbability == 50 && minimumDistanceMultiplier == 3
      ensures lastObstacle == null && offset == groundY
      ensures this.standardWidth == standardWidth && this.standardHeight == standardHeight
      ensures this.jumpMaxElevation == jumpMaxElevation && this.heroWidth == heroWidth
    {
      spawnProbability, minimumDistanceMultiplier := 50, 3;
      offset := groundY;
      this.standardWidth, this.standardHeight := standardWidth, standardHeight;
      this.jumpMaxElevation, this.heroWidth := jumpMaxElevation, heroWidth;
      lastObstacle, lastObstacleType := null, None;
    }

    /** The last obstacle as the choice and the placement see it. */
    function Last(): (r: Option<LastObstacle>)
      requires Valid()
      reads this, lastObstacle
      ensures r.None? <==> lastObstacle == null
      ensures r.Some? ==> r.value.box == lastObstacle.CollisionBox() && Some(r.value.kind) == lastObstacleType
    {
      if lastObstacle == null then None
      else Some(LastObstacle(lastObstacle.CollisionBox(), lastObstacle.xAxisVisible, lastObstacleType.value))
    }

    /**
     * `generateNewObstacle`: no type chosen gives `None` and changes nothing;
     * otherwise a new obstacle of the chosen type and `shapes`' size is placed,
     * and becomes the last one.
     */
    method GenerateNewObstacle(viewportWidth: int, d: TypeDraws, seed: int, shapes: SpawnableType -> Shape)
      returns (r: Result<Option<Obstacle>, Exception>)
      requires Valid() && DrawsInRange(d)
      modifies this
      ensures Valid()
      ensures spawnProbability == old(spawnProbability) && minimumDistanceMultiplier == old(minimumDistanceMultiplier)
      ensures var kind := AppropriateType(old(Last()), viewportWidth, standardWidth, minimumDistanceMultiplier, spawnProbability, d);
        var y := if kind.None? then Success(0)
                 else PlacementY(kind.value, old(Last()), viewportWidth, standardHeight, jumpMaxElevation,
                                 shapes(kind.value).height, offset, seed);
        && (kind.None? || y.Failure? ==>
              && r == (if kind.None? then Success(None) else Failure(y.error))
              && lastObstacle == old(lastObstacle) && lastObstacleType == old(lastObstacleType))
        && (kind.Some? && y.Success? ==>
              && r.Success? && r.value.Some? && fresh(r.value.value)
              && lastObstacle == r.value.value && lastObstacleType == kind
              && lastObstacle.CollisionBox() == Box(viewportWidth, y.value, shapes(kind.value).width, shapes(kind.value).height))
    {
      var kind := AppropriateType(Last(), viewportWidth, standardWidth, minimumDistanceMultiplier, spawnProbability, d);
      if kind.None? {
        return Success(None);
      }
      var obstacle := new Obstacle(shapes(kind.value));
      var thrown := SetPosition(obstacle, kind.value, viewportWidth, seed);
      if thrown.Some? {
        return Failure(thrown.value);
      }
      lastObstacle := obstacle;
      lastObstacleType := kind;
      r := Success(Some(obstacle));
    }

    /** `setPosition`: the right edge of the viewport along x, `PlacementY` along y. */
    method SetPosition(obstacle: Obstacle, kind: SpawnableType, viewportWidth: int, seed: int) returns (thrown: Option<Exception>)
      requires Valid() && obstacle != lastObstacle
      modifies obstacle
      ensures var y := PlacementY(kind, Last(), viewportWidth, standardHeight, jumpMaxElevation, old(obstacle.height), offset, seed);
        && (y.Failure? ==> thrown == Some(y.error) && unchanged(obstacle))
        && (y.Success? ==>
              && thrown.None? && obstacle.x == viewportWidth && obstacle.y == y.value
              && obstacle.width == old(obstacle.width) && obstacle.height == old(obstacle.height))
    {
      var yPosition := 0;
      if kind == Slidable {
        var drawn := NextInt(standardHeight / 2, standardHeight - 1, seed);
        if drawn.Failure? {
          return Some(drawn.error);
        }
        yPosition := drawn.value;
        if lastObstacleType == Some(Jumpable) && lastObstacle.x + lastObstacle.width >= viewportWidth - 1 {
          yPosition := yPosition + (lastObstacle.height + lastObstacle.y - offset);
        }
      }
      if kind == JumpableSlidable {
        var drawn := NextInt(standardHeight / 2, standardHeight / 2 + jumpMaxElevation - obstacle.height, seed);
        if drawn.Failure? {
          return Some(drawn.error);
        }
        yPosition := drawn.value;
      }
      yPosition := yPosition + offset;
      obstacle.SetPosition(viewportWidth, yPosition);
      thrown := None;
    }

    /** The test `clearOldObstacles` applies to every element. */
    predicate LastLeftScreen()
      requires lastObstacle != null
      reads this, lastObstacle
    {
      lastObstacle.x + lastObstacle.width + heroWidth < 0
    }

    /**
     * `clearOldObstacles`: the test reads the last obstacle rather than the
     * element, so either every obstacle goes (the last one has left the screen
     * by more than the hero's width) or none does.
     */
    method ClearOldObstacles(obstacles: ObstacleList)
      requires Valid()
      requires obstacles.elements != [] ==> lastObstacle != null
      modifies obstacles
      ensures old(obstacles.elements) == [] ==> obstacles.elements == []
      ensures old(obstacles.elements) != [] ==>
        obstacles.elements == (if LastLeftScreen() then [] else old(obstacles.elements))
    {
      if obstacles.elements == [] {
        return;
      }
      var toRemoveList := [];
      for i := 0 to |obstacles.elements|
        invariant toRemoveList == if LastLeftScreen() then obstacles.elements[..i] else []
      {
        if LastLeftScreen() {
          toRemoveList := toRemoveList + [obstacles.elements[i]];
        }
      }
      assert obstacles.elements[..|obstacles.elements|] == obstacles.elements;
      RemoveAll(obstacles, toRemoveList);
      if toRemoveList != [] {
        RemovingEveryElementEmpties(toRemoveList);
      }
    }

    /** The second loop of `clearOldObstacles`: `obstacles.remove` for each collected obstacle, in order. */
    static method RemoveAll(obstacles: ObstacleList, toRemoveList: seq<Obstacle>)
      modifies obstacles
      ensures obstacles.elements == RemoveEach(old(obstacles.elements), toRemoveList)
    {
      ghost var original := obstacles.elements;
      for k := 0 to |toRemoveList|
        invariant obstacles.elements == RemoveEach(original, toRemoveList[..k])
      {
        assert toRemoveList[..k + 1][..k] == toRemoveList[..k];
        var _ := obstacles.Remove(toRemoveList[k]);
      }
      assert toRemoveList[..|toRemoveList|] == toRemoveList;
    }

    /** `setSpawnProbability`: values below 1 throw and are not stored. */
    method SetSpawnProbability(p: int) returns (thrown: Option<Exception>)
      requires Valid()
      modifies this`spawnProbability
      ensures Valid()
      ensures p < 1 ==> thrown.Some? && spawnProbability == old(spawnProbability)
      ensures p >= 1 ==> thrown.None? && spawnProbability == p
    {
      if p < 1 {
        return Some(IllegalArgumentException("SpawnProbability must be greater or equal than 1."));
      }
      spawnProbability := p;
      thrown := None;
    }

    /** `setMinimumDistanceMultiplier`: values below 1 throw and are not stored. */
    method SetMinimumDistanceMultiplier(m: int) returns (thrown: Option<Exception>)
      requires Valid()
      modifies this`minimumDistanceMultiplier
      ensures Valid()
      ensures m < 1 ==> thrown.Some? && minimumDistanceMultiplier == old(minimumDistanceMultiplier)
      ensures m >= 1 ==> thrown.None? && minimumDistanceMultiplier == m
    {
      if m < 1 {
        return Some(IllegalArgumentException("MinimumDistanceMultiplier must be greater or equal than 1."));
      }
      minimumDistanceMultiplier := m;
      thrown := None;
    }
  }
}
