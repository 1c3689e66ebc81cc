/** The menu button of include/UI.h: its geometry and its inclusive hit test.
    The click callback and the label's rendering are not part of this model. */
module UserInterface {

  datatype Button = Button(
    x: int,
    y: int,
    width: int,
    height: int,
    text: string,
    isHovered: bool,
    isEnabled: bool)

  /** The constructor: the given geometry and label, enabled and not hovered. */
  function NewButton(x: int, y: int, w: int, h: int, text: string): (b: Button)
    ensures b.x == x && b.y == y && b.width == w && b.height == h && b.text == text
    ensures b.isEnabled && !b.isHovered
  {
    Button(x, y, w, h, text, false, true)
  }

  /** contains: the point lies in the rectangle, edges included. */
  predicate Contains(b: Button, mouseX: int, mouseY: int)
    ensures Contains(b, mouseX, mouseY) ==> b.width >= 0 && b.height >= 0
  {
    mouseX >= b.x && mouseX <= b.x + b.width && mouseY >= b.y && mouseY <= b.y + b.height
  }

  /** The hit area, written as the set of integer points it covers. */
  function HitArea(b: Button): (area: set<(int, int)>)
    ensures forall mx, my :: (mx, my) in area <==> Contains(b, mx, my)
  {
    set mx, my | b.x <= mx <= b.x + b.width && b.y <= my <= b.y + b.height :: (mx, my)
  }

  /** All four corners are hit when the size is not negative; a button of
      negative width or height is hit nowhere. */
  lemma CornersAreInside(b: Button)
    ensures b.width >= 0 && b.height >= 0 <==> Contains(b, b.x, b.y)
    ensures b.width >= 0 && b.height >= 0 ==>
              Contains(b, b.x + b.width, b.y) && Contains(b, b.x, b.y + b.height)
              && Contains(b, b.x + b.width, b.y + b.height)
    ensures b.width < 0 || b.height < 0 ==> HitArea(b) == {}
  {
  }

  /** A point left of or above the button is never hit, nor one past its far edges. */
  lemma OutsidePointsMiss(b: Button, mouseX: int, mouseY: int)
    ensures mouseX < b.x || mouseY < b.y ==> !Contains(b, mouseX, mouseY)
    ensures mouseX > b.x + b.width || mouseY > b.y + b.height ==> !Contains(b, mouseX, mouseY)
  {
  }

  /** Moving the button moves its hit area with it. */
  lemma HitTestFollowsPosition(b: Button, dx: int, dy: int, mouseX: int, mouseY: int)
    ensures Contains(b.(x := b.x + dx, y := b.y + dy), mouseX + dx, mouseY + dy)
            <==> Contains(b, mouseX, mouseY)
  {
  }

  /** A 200 by 50 button at (100, 100) takes a click at its far corner but
      not one a pixel beyond. */
  lemma MenuButtonExample()
    ensures Contains(NewButton(100, 100, 200, 50, "Play"), 300, 150)
    ensures !Contains(NewButton(100, 100, 200, 50, "Play"), 301, 150)
    ensures |HitArea(NewButton(0, 0, 0, 0, "Dot"))| == 1
  {
    var dot := NewButton(0, 0, 0, 0, "Dot");
    assert HitArea(dot) == {(0, 0)};
  }
}
