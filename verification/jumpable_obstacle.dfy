/**
 * `JumpableObstacle`: a decorator that, once, raises the wrapped obstacle (or
 * keeps its height) to a random height strictly below `jumpHeight - 1`, throwing
 * when it is already that tall, and from then on refuses to be resized, while
 * still letting it be moved.
 */
module JumpableObstacles {
  import opened Wrappers
  import opened JavaLang
  import opened Geometry
  import opened Spawnables

  /**
   * `resizeObstacleToJump`'s new height: drawn from `[min(height, jumpHeight - 1), jumpHeight - 1)`,
   * which is empty, and the draw throws, unless the height is already below `jumpHeight - 1`.
   */
  function ResizedHeight(height: int, jumpHeight: int, seed: int): (r: Result<int, Exception>)
    ensures r.Failure? <==> height >= jumpHeight - 1
    ensures r.Success? ==> Min(height, jumpHeight - 1) <= r.value < jumpHeight - 1
  {
    NextInt(Min(height, jumpHeight - 1), jumpHeight - 1, seed)
  }

  /** A successful resize never lowers the obstacle, and leaves it strictly below the jump height. */
  lemma ResizeRaisesBelowJumpHeight(height: int, jumpHeight: int, seed: int)
    requires ResizedHeight(height, jumpHeight, seed).Success?
    ensures height <= ResizedHeight(height, jumpHeight, seed).value < jumpHeight
  {
  }

  /** Every height of the range is a possible outcome. */
  lemma ResizeReachesEveryHeight(height: int, jumpHeight: int, h: int)
    requires height <= h < jumpHeight - 1
    ensures ResizedHeight(height, jumpHeight, h - height) == Success(h)
  {
    NextIntReachesEveryValue(height, jumpHeight - 1, h);
  }

  class JumpableObstacle {
    const obstacle: Obstacle
    var isResized: bool

    /** The state every constructed decorator is in: resized, and low enough to jump. */
    ghost predicate Valid()
      reads this, obstacle
    {
      isResized && obstacle.height < obstacle.jumpHeight - 1
    }

    /** Field initialisation; the resize follows in `Create`. */
    constructor Wrap(obstacle: Obstacle)
      ensures this.obstacle == obstacle && !isResized
    {
      this.obstacle := obstacle;
      isResized := false;
    }

    /**
     * `new JumpableObstacle(obstacle)`: wraps and resizes; an empty height range
     * makes the construction throw and leaves the wrapped obstacle as it was.
     */
    static method Create(obstacle: Obstacle, seed: int) returns (r: Result<JumpableObstacle, Exception>)
      modifies obstacle
      ensures var h := ResizedHeight(old(obstacle.height), obstacle.jumpHeight, seed);
        && (r.Failure? <==> h.Failure?)
        && (r.Failure? ==> r.error == h.error && unchanged(obstacle))
        && (r.Success? ==>
              && fresh(r.value) && r.value.obstacle == obstacle && r.value.Valid()
              && obstacle.height == h.value && obstacle.width == old(obstacle.width)
              && obstacle.x == old(obstacle.x) && obstacle.y == old(obstacle.y))
    {
      var j := new JumpableObstacle.Wrap(obstacle);
      var thrown := j.ResizeObstacleToJump(seed);
      if thrown.Some? {
        return Failure(thrown.value);
      }
      r := Success(j);
    }

    /** `resizeObstacleToJump`: keeps the width, draws the height, then freezes the size. */
    method ResizeObstacleToJump(seed: int) returns (thrown: Option<Exception>)
      requires !isResized
      modifies this, obstacle
      ensures var h := ResizedHeight(old(obstacle.height), obstacle.jumpHeight, seed);
        && (h.Failure? ==> thrown == Some(h.error) && unchanged(this) && unchanged(obstacle))
        && (h.Success? ==>
              && thrown.None? && Valid()
              && obstacle.height == h.value && obstacle.width == old(obstacle.width)
              && obstacle.x == old(obstacle.x) && obstacle.y == old(obstacle.y))
    {
      var minH := Min(Height(), JumpHeight() - 1);
      var maxH := JumpHeight() - 1;
      var newH := NextInt(minH, maxH, seed);
      if newH.Failure? {
        return Some(newH.error);
      }
      SetSize(Width(), newH.value);
      isResized := true;
      thrown := None;
    }

    function JumpHeight(): int reads this, obstacle { obstacle.jumpHeight }
    function SlideDistance(): int reads this, obstacle { obstacle.slideDistance }
    function Width(): int reads this, obstacle { obstacle.width }
    function Height(): int reads this, obstacle { obstacle.height }
    function X(): int reads this, obstacle { obstacle.x }
    function Y(): int reads this, obstacle { obstacle.y }
    function CollisionBox(): Box reads this, obstacle { obstacle.CollisionBox() }
    function IsSlideable(): bool reads this { obstacle.slideable }
    function IsMultipleSlideable(): bool reads this { obstacle.multipleSlideable }
    function IsXAxisVisible(): bool reads this, obstacle { obstacle.xAxisVisible }

    /** Always jumpable, whatever the wrapped obstacle says. */
    function IsJumpable(): bool { true }

    /** `setSize`: forwarded only until the resize has happened. */
    method SetSize(w: int, h: int)
      modifies obstacle
      ensures isResized ==> unchanged(obstacle)
      ensures !isResized ==> obstacle.width == w && obstacle.height == h
      ensures obstacle.x == old(obstacle.x) && obstacle.y == old(obstacle.y)
    {
      if !isResized {
        obstacle.SetSize(w, h);
      }
    }

    /** `setPosition`: always forwarded, so a resized obstacle still moves. */
    method SetPosition(x: int, y: int)
      requires Valid()
      modifies obstacle
      ensures Valid()
      ensures obstacle.x == x && obstacle.y == y
      ensures obstacle.width == old(obstacle.width) && obstacle.height == old(obstacle.height)
    {
      obstacle.SetPosition(x, y);
    }
  }

  /**
   * What the decorator adds: a resized decorator reports itself jumpable even
   * when the wrapped obstacle does not, its top stays below `jumpHeight - 1`
   * above its base, and every other capability is the wrapped obstacle's.
   */
  lemma ResizedDecoratorIsJumpable(j: JumpableObstacle)
    requires j.Valid()
    ensures j.IsJumpable()
    ensures Top(j.CollisionBox()) < j.Y() + j.JumpHeight() - 1
    ensures j.IsSlideable() == j.obstacle.slideable && j.IsMultipleSlideable() == j.obstacle.multipleSlideable
    ensures j.IsXAxisVisible() == j.obstacle.xAxisVisible && j.SlideDistance() == j.obstacle.slideDistance
  {
  }
}
