/**
 * Where the menu is put when it opens: the click's page coordinates,
 * shifted left or up when the menu would run past the window's right or
 * bottom edge. The two directions follow different rules.
 */
module Placement {

  /** The page coordinates (`pageX`, `pageY`) of a right click. */
  datatype Point = Point(x: int, y: int)

  /** The menu's outer size and the window's size, as read when the menu opens. */
  datatype Geometry = Geometry(menuWidth: nat, menuHeight: nat, windowWidth: nat, windowHeight: nat)

  /** The `left` and `top` written into the menu's style. */
  datatype Position = Position(left: int, top: int)

  /** The menu would run past the right edge, and moving it to the left of the click keeps `left` strictly positive. */
  predicate FlipsLeft(click: Point, g: Geometry) {
    click.x + g.menuWidth > g.windowWidth && click.x - g.menuWidth > 0
  }

  /** The menu would run past the bottom edge; there is no guard for the top edge. */
  predicate FlipsUp(click: Point, g: Geometry) {
    click.y + g.menuHeight > g.windowHeight
  }

  /** The menu's position for a right click at `click`. */
  function Place(click: Point, g: Geometry): (p: Position)
    // a flipped menu ends exactly at the click, otherwise it starts at the click
    ensures FlipsLeft(click, g) ==> p.left + g.menuWidth == click.x
    ensures !FlipsLeft(click, g) ==> p.left == click.x
    ensures FlipsUp(click, g) ==> p.top + g.menuHeight == click.y
    ensures !FlipsUp(click, g) ==> p.top == click.y
    // the menu never moves right of or below the click
    ensures p.left <= click.x && p.top <= click.y
    // a horizontal move never takes `left` to zero or below
    ensures p.left < click.x ==> p.left > 0
    // the menu keeps overflowing the right edge only when moving it would not leave `left` positive
    ensures p.left == click.x && click.x + g.menuWidth > g.windowWidth && g.menuWidth > 0 ==> click.x - g.menuWidth <= 0
    // a menu that fits is left where it was clicked
    ensures click.x + g.menuWidth <= g.windowWidth && click.y + g.menuHeight <= g.windowHeight ==> p == Position(click.x, click.y)
  {
    var x := if FlipsLeft(click, g) then click.x - g.menuWidth else click.x;
    var y := if FlipsUp(click, g) then click.y - g.menuHeight else click.y;
    Position(x, y)
  }

  /** The worked example: a 200x100 menu opened at (500, 500) in a 600x550 window opens at (300, 400). */
  lemma ExamplePlacement()
    ensures Place(Point(500, 500), Geometry(200, 100, 600, 550)) == Position(300, 400)
  {
  }

  /** Without a lower guard, an upward move can give a negative `top`. */
  lemma TopCanBeNegative()
    ensures Place(Point(500, 40), Geometry(200, 100, 600, 100)).top == -60
  {
  }

  /** When moving left would reach zero or less, the menu stays at the click and overflows the right edge. */
  lemma RightOverflowKept()
    ensures Place(Point(150, 0), Geometry(200, 10, 300, 100)) == Position(150, 0)
  {
  }
}
