/**
 * The root `CollisionManager`: classifies which side of the hero an obstacle
 * touches by four 1-unit probe strips around the hero's box, then pushes the
 * hero out sideways or lands it on top, with a flag that turns the loss of
 * ground contact into one Fall request.
 *
 * Side names follow the code: RIGHT (0) is the probe to the LEFT of the hero
 * (an obstacle there is to the hero's left, and the hero is put at its right
 * edge); LEFT (2) is the probe to the right of the hero.
 */
module ProbeCollision {
  import opened Wrappers
  import opened Geometry
  import opened HeroStateTypes
  import opened HeroModel
  import opened HeroMoveStates

  const RIGHT: int := 0
  const BOTTOM: int := 1
  const LEFT: int := 2
  const TOP: int := 3
  /** No probe overlaps the obstacle. */
  const NONE: int := -1

  /** Probe `i`: 0 left of the hero, 1 below it, 2 right of it, 3 above it. */
  function Probe(h: Box, i: int): Box
    requires 0 <= i < 4
  {
    if i == 0 then Box(h.x - 1, h.y, 1, h.height)
    else if i == 1 then Box(h.x, h.y - 1, h.width, 1)
    else if i == 2 then Box(h.x + h.width, h.y, 1, h.height)
    else Box(h.x, h.y + h.height, h.width, 1)
  }

  /** The probes are 1-unit strips flush against the hero's sides, and none overlaps the hero. */
  lemma ProbesSurroundHero(h: Box, i: int)
    requires 0 <= i < 4
    ensures !Intersects(Probe(h, i), h)
    ensures i == 0 ==> Right(Probe(h, i)) == h.x && Probe(h, i).width == 1 && Probe(h, i).height == h.height
    ensures i == 1 ==> Top(Probe(h, i)) == h.y && Probe(h, i).height == 1 && Probe(h, i).width == h.width
    ensures i == 2 ==> Probe(h, i).x == Right(h) && Probe(h, i).width == 1 && Probe(h, i).height == h.height
    ensures i == 3 ==> Probe(h, i).y == Top(h) && Probe(h, i).height == 1 && Probe(h, i).width == h.width
  {
  }

  /** The area the obstacle covers of probe `i` (0 when they do not intersect). */
  function ProbeArea(h: Box, o: Box, i: int): int
    requires 0 <= i < 4
  {
    OverlapArea(o, Probe(h, i))
  }

  /**
   * What `collisionSide` promises: NONE exactly when no probe is covered with
   * positive area; otherwise a probe with positive, greatest area, and the
   * lowest such index (ties keep the earlier probe).
   */
  ghost predicate IsCollisionSide(h: Box, o: Box, side: int) {
    && NONE <= side < 4
    && (side == NONE <==> forall i :: 0 <= i < 4 ==> ProbeArea(h, o, i) == 0)
    && (side != NONE ==>
          && ProbeArea(h, o, side) > 0
          && (forall i :: 0 <= i < 4 ==> ProbeArea(h, o, i) <= ProbeArea(h, o, side))
          && (forall i :: 0 <= i < side ==> ProbeArea(h, o, i) < ProbeArea(h, o, side)))
  }

  /** At most one side meets that description: the classification is a function of the two boxes. */
  lemma CollisionSideUnique(h: Box, o: Box, s1: int, s2: int)
    requires IsCollisionSide(h, o, s1) && IsCollisionSide(h, o, s2)
    ensures s1 == s2
  {
  }

  /** The scan of probes `i..3` that `collisionSide`'s loop performs, as a function. */
  function Scan(h: Box, o: Box, i: int, greatest: int, greatestArea: int): int
    requires 0 <= i <= 4
    decreases 4 - i
  {
    if i == 4 then greatest
    else if ProbeArea(h, o, i) > greatestArea then Scan(h, o, i + 1, i, ProbeArea(h, o, i))
    else Scan(h, o, i + 1, greatest, greatestArea)
  }

  /** The side `collisionSide` returns for these boxes. */
  function ChosenSide(h: Box, o: Box): int
  {
    Scan(h, o, 0, NONE, 0)
  }

  /** The state of the scan after probes `0..i-1`: the running best, as in the loop. */
  ghost predicate ScannedUpTo(h: Box, o: Box, i: int, greatest: int, greatestArea: int)
    requires 0 <= i <= 4
  {
    && NONE <= greatest < i
    && (greatest == NONE ==> greatestArea == 0 && forall j :: 0 <= j < i ==> ProbeArea(h, o, j) == 0)
    && (greatest != NONE ==>
          && greatestArea == ProbeArea(h, o, greatest) > 0
          && (forall j :: 0 <= j < i ==> ProbeArea(h, o, j) <= greatestArea)
          && (forall j :: 0 <= j < greatest ==> ProbeArea(h, o, j) < greatestArea))
  }

  lemma {:induction false} ScanFinds(h: Box, o: Box, i: int, greatest: int, greatestArea: int)
    requires 0 <= i <= 4
    requires ScannedUpTo(h, o, i, greatest, greatestArea)
    ensures IsCollisionSide(h, o, Scan(h, o, i, greatest, greatestArea))
    decreases 4 - i
  {
    if i < 4 {
      var a := ProbeArea(h, o, i);
      if a > greatestArea {
        ScanFinds(h, o, i + 1, i, a);
      } else {
        ScanFinds(h, o, i + 1, greatest, greatestArea);
      }
    }
  }

  /** The functional scan meets the classification's description. */
  lemma ChosenSideIsCollisionSide(h: Box, o: Box)
    ensures IsCollisionSide(h, o, ChosenSide(h, o))
  {
    ScanFinds(h, o, 0, NONE, 0);
  }

  /** Edge contact alone never counts as a collision. */
  lemma EdgeContactIsNoCollision(h: Box, o: Box)
    requires forall i :: 0 <= i < 4 ==> !Intersects(o, Probe(h, i))
    ensures ChosenSide(h, o) == NONE
  {
    ChosenSideIsCollisionSide(h, o);
  }

  /** Only the probe to the right covered: the side is LEFT. */
  lemma OnlyRightProbeCoveredIsLeft(h: Box, o: Box)
    requires ProbeArea(h, o, 0) == 0 && ProbeArea(h, o, 1) == 0 && ProbeArea(h, o, 3) == 0
    requires ProbeArea(h, o, 2) > 0
    ensures ChosenSide(h, o) == LEFT
  {
    ChosenSideIsCollisionSide(h, o);
  }

  /** The hero and obstacle of the worked example: only probe 2 is covered (area 10), so the side is LEFT. */
  lemma ExampleSideIsLeft(h: Box, o: Box)
    requires h == Box(110, 0, 20, 40) && o == Box(130, 0, 10, 10)
    ensures ProbeArea(h, o, 2) == 10
    ensures ChosenSide(h, o) == LEFT
  {
    ExampleUncoveredProbes(h, o);
    ExampleCoveredProbe(h, o);
    OnlyRightProbeCoveredIsLeft(h, o);
  }

  lemma ExampleCoveredProbe(h: Box, o: Box)
    requires h == Box(110, 0, 20, 40) && o == Box(130, 0, 10, 10)
    ensures ProbeArea(h, o, 2) == 10
  {
    var p := Probe(h, 2);
    assert OverlapWidth(o, p) == 1 && OverlapHeight(o, p) == 10;
    OverlapAreaOfSides(o, p, 1, 10);
  }

  lemma ExampleUncoveredProbes(h: Box, o: Box)
    requires h == Box(110, 0, 20, 40) && o == Box(130, 0, 10, 10)
    ensures ProbeArea(h, o, 0) == 0 && ProbeArea(h, o, 1) == 0 && ProbeArea(h, o, 3) == 0
  {
    assert !Intersects(o, Probe(h, 0));
    assert !Intersects(o, Probe(h, 1));
    assert !Intersects(o, Probe(h, 3));
  }

  /** One tick earlier (x = 105) the probe to the right does not reach the obstacle yet. */
  lemma ExampleNoSideOneStepEarlier(h: Box, o: Box)
    requires h == Box(105, 0, 20, 40) && o == Box(130, 0, 10, 10)
    ensures ChosenSide(h, o) == NONE
  {
    assert !Intersects(o, Probe(h, 0)) && !Intersects(o, Probe(h, 1));
    assert !Intersects(o, Probe(h, 2)) && !Intersects(o, Probe(h, 3));
    EdgeContactIsNoCollision(h, o);
  }

  /** `collisionSide`: builds the four probes and keeps the strictly greatest positive area. */
  method CollisionSide(hero: Hero, obstacle: Box) returns (greatest: int)
    ensures IsCollisionSide(hero.CollisionBox(), obstacle, greatest)
  {
    var h := hero.CollisionBox();
    var boxes := new Box[4];
    boxes[0] := Box(h.x - 1, h.y, 1, h.height);
    boxes[1] := Box(h.x, h.y - 1, h.width, 1);
    boxes[2] := Box(h.x + h.width, h.y, 1, h.height);
    boxes[3] := Box(h.x, h.y + h.height, h.width, 1);

    var greatestArea := 0;
    greatest := NONE;
    for i := 0 to boxes.Length
      invariant forall k :: 0 <= k < 4 ==> boxes[k] == Probe(h, k)
      invariant ScannedUpTo(h, obstacle, i, greatest, greatestArea)
    {
      if Intersects(obstacle, boxes[i]) {
        var intersection := Intersection(obstacle, boxes[i]);
        var area := Area(intersection);
        if area > greatestArea {
          greatestArea := area;
          greatest := i;
        }
      }
    }
    ScanFinds(h, obstacle, 4, greatest, greatestArea);
  }

  /** The hero after `checkCollision`, and the new value of the flag. */
  datatype Resolution = Resolution(hero: HeroView, wasOnObstacle: bool)

  function Resolve(v: HeroView, o: Box, wasOnObstacle: bool, sounds: map<HeroStateType, Sound>): Resolution
  {
    var side := ChosenSide(ViewBox(v), o);
    if side == RIGHT then Resolution(v.(x := o.x + o.width), wasOnObstacle)
    else if side == LEFT then Resolution(v.(x := o.x - v.width), wasOnObstacle)
    else if side == BOTTOM then Resolution(Idled(v, sounds).(y := o.y + o.height), true)
    else if side == TOP then Resolution(v, wasOnObstacle)
    else Resolution(if wasOnObstacle then v.(effects := v.effects + [Requested(Fall)]) else v, false)
  }

  /** Side RIGHT puts the hero against the obstacle's right edge, LEFT against its left edge; y stays. */
  lemma SideContactSnapsX(v: HeroView, o: Box, flag: bool, sounds: map<HeroStateType, Sound>)
    requires ChosenSide(ViewBox(v), o) in {RIGHT, LEFT}
    ensures var r := Resolve(v, o, flag, sounds);
      && r.hero.y == v.y && r.wasOnObstacle == flag
      && r.hero == v.(x := r.hero.x)
      && (ChosenSide(ViewBox(v), o) == RIGHT ==> r.hero.x == Right(o))
      && (ChosenSide(ViewBox(v), o) == LEFT ==> Right(ViewBox(r.hero)) == o.x)
  {
  }

  /** Landing on top sets the flag, asks for Idle, and puts the hero's bottom exactly on the obstacle's top. */
  lemma LandingSnapsToTop(v: HeroView, o: Box, flag: bool, sounds: map<HeroStateType, Sound>)
    requires ChosenSide(ViewBox(v), o) == BOTTOM
    ensures var r := Resolve(v, o, flag, sounds);
      && r.wasOnObstacle
      && r.hero.y == Top(o)
      && r.hero.x == v.x
      && r.hero == Idled(v, sounds).(y := Top(o))
  {
    var i := Idled(v, sounds);
    EnteringSetsAnimationThenAtMostOneSound(v, MoveState(Some(RUN), v.moveState.animations), sounds);
    assert i.x == v.x;
  }

  /** Contact above the hero changes nothing. */
  lemma OverheadContactChangesNothing(v: HeroView, o: Box, flag: bool, sounds: map<HeroStateType, Sound>)
    requires ChosenSide(ViewBox(v), o) == TOP
    ensures Resolve(v, o, flag, sounds) == Resolution(v, flag)
  {
  }

  /** No contact: one Fall request exactly when the flag was set, and the flag ends cleared. */
  lemma NoContactFallsOnce(v: HeroView, o: Box, flag: bool, sounds: map<HeroStateType, Sound>)
    requires ChosenSide(ViewBox(v), o) == NONE
    ensures var r := Resolve(v, o, flag, sounds);
      && !r.wasOnObstacle
      && r.hero.effects == v.effects + (if flag then [Requested(Fall)] else [])
      && r.hero.(effects := v.effects) == v
  {
  }

  /** Worked example: the hero at x = 110 beside the obstacle at x = 130 stays at 130 - 20 = 110. */
  lemma ExampleResolution(v: HeroView, flag: bool, sounds: map<HeroStateType, Sound>)
    requires ViewBox(v) == Box(110, 0, 20, 40)
    ensures Resolve(v, Box(130, 0, 10, 10), flag, sounds) == Resolution(v.(x := 110), flag)
  {
    ExampleSideIsLeft(ViewBox(v), Box(130, 0, 10, 10));
  }

  /** Holder of the flag the source keeps in a static field. */
  class CollisionManager {
    var wasOnObstacle: bool

    constructor ()
      ensures !wasOnObstacle
    {
      wasOnObstacle := false;
    }

    /** `checkCollision`. */
    method CheckCollision(hero: Hero, obstacle: Box, sounds: map<HeroStateType, Sound>)
      requires hero.Valid()
      modifies this, hero
      ensures hero.Valid()
      ensures Resolution(hero.View(), wasOnObstacle) == Resolve(old(hero.View()), obstacle, old(wasOnObstacle), sounds)
    {
      var collision := CollisionSide(hero, obstacle);
      ghost var h := old(hero.CollisionBox());
      ChosenSideIsCollisionSide(h, obstacle);
      CollisionSideUnique(h, obstacle, collision, ChosenSide(h, obstacle));

      if collision == RIGHT {
        hero.SetX(obstacle.x + obstacle.width);
      } else if collision == LEFT {
        hero.SetX(obstacle.x - hero.width);
      } else if collision == BOTTOM {
        wasOnObstacle := true;
        OnIdle(hero, sounds);
        hero.SetY(obstacle.y + obstacle.height);
      } else if collision == TOP {
      } else {
        if wasOnObstacle {
          hero.Request(Fall);
        }
        wasOnObstacle := false;
      }
    }
  }
}
