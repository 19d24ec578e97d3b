/**
 A menu button: a labelled rectangle that reports whether a mouse click
 landed on it.  The colour, the click callback and drawing are not
 modelled.
 */
module Buttons {
  import opened PyRange
  import Actors
  import GameRules

  datatype Button = Button(x: int, y: int, width: int, height: int, caption: string)

  /** Whether the mouse position (mx, my) is on the button.  Both edges are
      part of the button: x <= mx <= x + width and y <= my <= y + height. */
  function CheckMousePos(b: Button, mx: int, my: int): (hit: bool)
    ensures hit <==> InRange(mx, b.x, b.x + b.width + 1) && InRange(my, b.y, b.y + b.height + 1)
    ensures mx < b.x || mx > b.x + b.width ==> !hit
    ensures my < b.y || my > b.y + b.height ==> !hit
  {
    (b.x <= mx <= b.x + b.width) && (b.y <= my <= b.y + b.height)
  }

  /** All four corners of a button of non-negative size are hits. */
  lemma CornersAreHits(b: Button)
    requires b.width >= 0 && b.height >= 0
    ensures CheckMousePos(b, b.x, b.y)
    ensures CheckMousePos(b, b.x + b.width, b.y)
    ensures CheckMousePos(b, b.x, b.y + b.height)
    ensures CheckMousePos(b, b.x + b.width, b.y + b.height)
  {
  }

  /** The button's hit test and the game's point lookup agree: a click is on
      the button exactly when an actor with the same box would be found at
      that point. */
  lemma HitTestMatchesActorBox(b: Button, mx: int, my: int)
    ensures CheckMousePos(b, mx, my) ==
      GameRules.Contains(Actors.Ball(b.x, b.y, b.width, b.height), mx, my)
  {
  }
}
