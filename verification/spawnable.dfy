/**
 * A spawnable obstacle: the state behind the `Spawnable` interface that the
 * obstacle decorator and the obstacle manager work on. Positions and sizes are
 * whole numbers here.
 */
module Spawnables {
  import opened Geometry

  /** What the obstacle factory decides for a new obstacle. */
  datatype Shape = Shape(
    width: int, height: int,
    jumpHeight: int, slideDistance: int,
    jumpable: bool, slideable: bool, multipleSlideable: bool,
    xAxisVisible: bool)

  class Obstacle {
    var x: int
    var y: int
    var width: int
    var height: int
    /** Whether the obstacle is on screen along x; the game loop updates it as obstacles scroll. */
    var xAxisVisible: bool
    const jumpHeight: int
    const slideDistance: int
    const jumpable: bool
    const slideable: bool
    const multipleSlideable: bool

    constructor (shape: Shape)
      ensures x == 0 && y == 0
      ensures width == shape.width && height == shape.height && xAxisVisible == shape.xAxisVisible
      ensures jumpHeight == shape.jumpHeight && slideDistance == shape.slideDistance
      ensures jumpable == shape.jumpable && slideable == shape.slideable && multipleSlideable == shape.multipleSlideable
    {
      x, y := 0, 0;
      width, height := shape.width, shape.height;
      xAxisVisible := shape.xAxisVisible;
      jumpHeight, slideDistance := shape.jumpHeight, shape.slideDistance;
      jumpable, slideable, multipleSlideable := shape.jumpable, shape.slideable, shape.multipleSlideable;
    }

    function CollisionBox(): (r: Box)
      reads this
      ensures r.x == x && r.y == y && Right(r) == x + width && Top(r) == y + height
    {
      Box(x, y, width, height)
    }

    method SetSize(w: int, h: int)
      modifies this
      ensures width == w && height == h
      ensures x == old(x) && y == old(y) && xAxisVisible == old(xAxisVisible)
    {
      width, height := w, h;
    }

    method SetPosition(newX: int, newY: int)
      modifies this
      ensures x == newX && y == newY
      ensures width == old(width) && height == old(height) && xAxisVisible == old(xAxisVisible)
    {
      x, y := newX, newY;
    }
  }
}
