/**
 The game's actors: the two human-controlled paddles and the ball.  An
 actor is an immutable record of integer position, size and (for players)
 speed and score; an operation that moves an actor returns the moved copy.
 Colours and drawing are not modelled.
 */
module Actors {
  import opened Options

  /** Every actor has a position (x, y) on the stage and a width x height
      box.  A human player also has a speed (pixels per key press) and a
      score.  The ball never has its speed assigned, so it has no speed. */
  datatype Actor =
    | HumanPlayer(x: int, y: int, width: int, height: int, speed: int, score: int)
    | Ball(x: int, y: int, width: int, height: int)

  /** An actor that is a human player (the only kind that has a speed and a score). */
  type Player = a: Actor | a.HumanPlayer? witness HumanPlayer(0, 0, 15, 80, 10, 0)

  const PaddleWidth: int := 15
  const PaddleHeight: int := 80
  const PaddleSpeed: int := 10
  const BallSize: int := 18

  /** The coordinates (x, y) of an actor. */
  function GetCoordinates(a: Actor): (int, int)
  {
    (a.x, a.y)
  }

  /** The dimensions (width, height) of an actor. */
  function GetDimensions(a: Actor): (int, int)
  {
    (a.width, a.height)
  }

  /** The speed of an actor; `None` for the ball, whose speed attribute is
      never assigned (reading it fails). */
  function GetSpeed(a: Actor): (r: Option<int>)
    ensures r.Some? <==> a.HumanPlayer?
    ensures r.Some? ==> r.value == a.speed
  {
    match a
    case HumanPlayer(_, _, _, _, speed, _) => Some(speed)
    case Ball(_, _, _, _) => None
  }

  /** The score of a human player. */
  function GetScore(p: Player): int
  {
    p.score
  }

  /** A new human player at (x, y): a 15 x 80 paddle with speed 10 and score 0. */
  function NewHumanPlayer(x: int, y: int): (p: Player)
    ensures GetCoordinates(p) == (x, y)
    ensures GetDimensions(p) == (PaddleWidth, PaddleHeight)
    ensures GetSpeed(p) == Some(PaddleSpeed)
    ensures GetScore(p) == 0
  {
    HumanPlayer(x, y, PaddleWidth, PaddleHeight, PaddleSpeed, 0)
  }

  /** A new ball at (x, y): an 18 x 18 box. */
  function NewBall(x: int, y: int): (b: Actor)
    ensures GetCoordinates(b) == (x, y)
    ensures GetDimensions(b) == (BallSize, BallSize)
    ensures GetSpeed(b) == None
  {
    Ball(x, y, BallSize, BallSize)
  }

  /** The player moved vertically to `y`, everything else as before. */
  function WithY(p: Player, y: int): Player
  {
    HumanPlayer(p.x, y, p.width, p.height, p.speed, p.score)
  }

  /** A human player's move: "up" subtracts the speed from y, "down" adds
      it, and any other direction leaves the player where it is.  No bound
      is checked here; the game checks bounds before calling it. */
  function Move(p: Player, direction: string): (r: Player)
    ensures GetDimensions(r) == GetDimensions(p)
    ensures GetCoordinates(r).0 == GetCoordinates(p).0
    ensures GetSpeed(r) == GetSpeed(p) && GetScore(r) == GetScore(p)
    ensures direction == "up" ==> r.y == p.y - p.speed
    ensures direction == "down" ==> r.y == p.y + p.speed
    ensures direction != "up" && direction != "down" ==> r == p
  {
    if direction == "up" then WithY(p, p.y - p.speed)
    else if direction == "down" then WithY(p, p.y + p.speed)
    else p
  }

  /** A move down undoes a move up and vice versa: the two directions are
      inverse to each other. */
  lemma MoveUpDownInverse(p: Player)
    ensures Move(Move(p, "up"), "down") == p
    ensures Move(Move(p, "down"), "up") == p
  {
  }
}
