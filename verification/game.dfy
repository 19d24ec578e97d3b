/**
 The game-level rules: locating the actor under a point, deciding whether
 the game has been won, setting up the stage, and the per-frame paddle
 movement driven by the pressed keys.  Event polling, the frame delay and
 drawing are left to the caller: a frame's input arrives as a `Frame`
 value (the four movement keys and whether a quit event was seen).
 */
module GameRules {
  import opened Options
  import opened PyRange
  import opened Actors

  /** The lower edge used by the paddle guard.  It is a literal in the
      movement rule and does not follow the screen size. */
  const StageBottom: int := 720

  /** A game after set-up: its screen size, goal score, whether it is still
      running, the two paddles and the ball. */
  datatype Game = Game(
    screenSize: (int, int),
    goalScore: int,
    running: bool,
    player1: Player,
    player2: Player,
    ball: Actor)

  /** The movement keys held down during a frame: W and S move the first
      player, the up and down arrows move the second. */
  datatype Keys = Keys(w: bool, s: bool, up: bool, down: bool)

  /** The input of one frame: the keys held and whether a quit event arrived. */
  datatype Frame = Frame(keys: Keys, quit: bool)

  /** The game's actor list, in the order it is built: first player, second
      player, ball.  Every actor in it is the same object as the game's own
      field, so it always reflects their current positions. */
  function ActorList(g: Game): seq<Actor>
  {
    [g.player1, g.player2, g.ball]
  }

  // ---------------------------------------------------------------------
  // Point lookup

  /** Whether the point (x, y) lies in the actor's box, tested as
      `x in range(a.x, a.x + width + 1)` and likewise for y.  Both edges
      of the box are inside. */
  function Contains(a: Actor, x: int, y: int): (hit: bool)
    ensures hit <==> a.x <= x <= a.x + a.width && a.y <= y <= a.y + a.height
  {
    InRange(x, a.x, a.x + a.width + 1) && InRange(y, a.y, a.y + a.height + 1)
  }

  /** The first actor of `actors`, in list order, whose box contains (x, y);
      `None` when there is none. */
  function ActorAt(actors: seq<Actor>, x: int, y: int): (r: Option<Actor>)
    ensures r.None? <==> forall i :: 0 <= i < |actors| ==> !Contains(actors[i], x, y)
    ensures r.Some? ==>
      exists i :: 0 <= i < |actors| && actors[i] == r.value && Contains(actors[i], x, y) &&
        forall j :: 0 <= j < i ==> !Contains(actors[j], x, y)
  {
    if |actors| == 0 then None
    else if Contains(actors[0], x, y) then Some(actors[0])
    else
      var r := ActorAt(actors[1..], x, y);
      assert forall i :: 1 <= i < |actors| ==> actors[i] == actors[1..][i - 1];
      r
  }

  /** The point lookup as a linear scan of the list, returning the first
      actor whose box contains (x, y), or `None`.  The list itself is a
      value and is left as it was. */
  method GetActor(actors: seq<Actor>, x: int, y: int) returns (r: Option<Actor>)
    ensures r == ActorAt(actors, x, y)
    ensures r.Some? ==> r.value in actors && Contains(r.value, x, y)
    ensures r.None? ==> forall a :: a in actors ==> !Contains(a, x, y)
  {
    var i := 0;
    while i < |actors|
      invariant 0 <= i <= |actors|
      invariant forall j :: 0 <= j < i ==> !Contains(actors[j], x, y)
      invariant ActorAt(actors[i..], x, y) == ActorAt(actors, x, y)
    {
      if Contains(actors[i], x, y) {
        return Some(actors[i]);
      }
      assert actors[i..][1..] == actors[i + 1..];
      i := i + 1;
    }
    return None;
  }

  // ---------------------------------------------------------------------
  // Winning

  /** The game is won when some player's score is exactly the goal score.
      A score that has passed the goal does not count. */
  function GameWon(g: Game): (won: bool)
    ensures won <==> exists p :: p in [g.player1, g.player2] && GetScore(p) == g.goalScore
    ensures GetScore(g.player1) != g.goalScore && GetScore(g.player2) != g.goalScore ==> !won
  {
    GetScore(g.player1) == g.goalScore || GetScore(g.player2) == g.goalScore
  }

  // ---------------------------------------------------------------------
  // Set-up

  /** A paddle is on the stage when its box lies between 0 and the stage
      bottom: 0 <= y <= 720 - height. */
  predicate PaddleInBounds(p: Player)
  {
    0 <= p.y && p.y + p.height <= StageBottom
  }

  /** The invariant the movement rule keeps: both paddles have a
      non-negative speed and lie on the stage. */
  predicate Valid(g: Game)
  {
    && g.player1.speed >= 0 && PaddleInBounds(g.player1)
    && g.player2.speed >= 0 && PaddleInBounds(g.player2)
  }

  /** A game set up on a screen of the given size with the given goal: the
      first player at (10, 0), the second at (935, 0), the ball at the
      centre of the screen (floor halves), and the game running. */
  function OnInit(size: (int, int), goal: int): (g: Game)
    ensures ActorList(g) == [NewHumanPlayer(10, 0), NewHumanPlayer(935, 0), NewBall(size.0 / 2, size.1 / 2)]
    ensures g.running && g.goalScore == goal && g.screenSize == size
    ensures Valid(g)
    ensures !GameWon(g) <==> goal != 0
  {
    Game(size, goal, true, NewHumanPlayer(10, 0), NewHumanPlayer(935, 0), NewBall(size.0 / 2, size.1 / 2))
  }

  // ---------------------------------------------------------------------
  // Paddle movement

  /** One paddle's movement in a frame.  The up key moves the paddle up
      only if y - speed >= 0; then the down key moves it down only if
      y + height + speed <= 720, tested on the position after the up move. */
  function StepPaddle(p: Player, upHeld: bool, downHeld: bool): (r: Player)
    ensures r == WithY(p, r.y)
    ensures upHeld && !downHeld ==>
      if p.y - p.speed >= 0 then r.y == p.y - p.speed else r == p
    ensures !upHeld && downHeld ==>
      if p.y + p.height + p.speed <= StageBottom then r.y == p.y + p.speed else r == p
    ensures !upHeld && !downHeld ==> r == p
    ensures p.speed >= 0 && PaddleInBounds(p) ==> PaddleInBounds(r)
    ensures p.speed >= 0 && PaddleInBounds(p) && upHeld && downHeld && p.y >= p.speed ==> r == p
    ensures upHeld && downHeld && p.y - p.speed < 0 ==>
      if p.y + p.height + p.speed <= StageBottom then r.y == p.y + p.speed else r == p
  {
    var afterUp :=
      if upHeld && GetCoordinates(p).1 - p.speed >= 0 then Move(p, "up") else p;
    if downHeld && GetCoordinates(afterUp).1 + GetDimensions(afterUp).1 + afterUp.speed <= StageBottom
    then Move(afterUp, "down")
    else afterUp
  }

  /** With both keys held, the step is the up-only step followed by the
      down-only step: the down guard sees the position after the up move. */
  lemma BothKeysIsUpThenDown(p: Player)
    ensures StepPaddle(p, true, true) == StepPaddle(StepPaddle(p, true, false), false, true)
  {
  }

  /** One frame of the game: a quit event stops the game (the keys of that
      frame are still applied), each player's paddle takes its guarded
      step, and the ball, whose movement is not implemented, stays put. */
  function OnMove(g: Game, frame: Frame): (r: Game)
    ensures r.running == (g.running && !frame.quit)
    ensures r.player1 == StepPaddle(g.player1, frame.keys.w, frame.keys.s)
    ensures r.player2 == StepPaddle(g.player2, frame.keys.up, frame.keys.down)
    ensures r.ball == g.ball && r.goalScore == g.goalScore && r.screenSize == g.screenSize
    ensures GameWon(r) == GameWon(g)
    ensures Valid(g) ==> Valid(r)
  {
    Game(g.screenSize, g.goalScore, if frame.quit then false else g.running,
      StepPaddle(g.player1, frame.keys.w, frame.keys.s),
      StepPaddle(g.player2, frame.keys.up, frame.keys.down),
      g.ball)
  }

  /** The main loop over a sequence of frames: while the game is running it
      takes one frame; it stops when the game stops or the frames run out. */
  function Run(g: Game, frames: seq<Frame>): (r: Game)
    ensures Valid(g) ==> Valid(r)
    ensures r.ball == g.ball && r.goalScore == g.goalScore && r.screenSize == g.screenSize
    ensures r.player1 == WithY(g.player1, r.player1.y) && r.player2 == WithY(g.player2, r.player2.y)
    ensures GameWon(r) == GameWon(g)
    ensures !g.running ==> r == g
    ensures r.running <==> g.running && forall i :: 0 <= i < |frames| ==> !frames[i].quit
    decreases |frames|
  {
    if !g.running || |frames| == 0 then g
    else
      var r := Run(OnMove(g, frames[0]), frames[1..]);
      assert forall i :: 1 <= i < |frames| ==> frames[i] == frames[1..][i - 1];
      r
  }

  /** A single frame of the loop is one `OnMove` when the game is running,
      and nothing otherwise. */
  lemma RunOneFrame(g: Game, f: Frame)
    ensures Run(g, [f]) == if g.running then OnMove(g, f) else g
  {
    assert [f][1..] == [];
  }

  /** Running the frames `a` and then the frames `b` is running `a + b`:
      the loop takes its frames one after another, in order. */
  lemma {:induction false} RunConcat(g: Game, a: seq<Frame>, b: seq<Frame>)
    ensures Run(g, a + b) == Run(Run(g, a), b)
    decreases |a|
  {
    if |a| == 0 {
      assert a + b == b;
    } else if !g.running {
    } else {
      assert (a + b)[0] == a[0];
      assert (a + b)[1..] == a[1..] + b;
      RunConcat(OnMove(g, a[0]), a[1..], b);
    }
  }

  /** From the set-up position, no sequence of frames ever moves a paddle
      off the stage. */
  lemma PaddlesStayOnStage(size: (int, int), goal: int, frames: seq<Frame>)
    ensures Valid(Run(OnInit(size, goal), frames))
  {
  }

  // ---------------------------------------------------------------------
  // Holding a key down

  /** The paddle after `n` frames with only the up key held. */
  function HoldUp(p: Player, n: nat): Player
    decreases n
  {
    if n == 0 then p else HoldUp(StepPaddle(p, true, false), n - 1)
  }

  /** The paddle after `n` frames with only the down key held. */
  function HoldDown(p: Player, n: nat): Player
    decreases n
  {
    if n == 0 then p else HoldDown(StepPaddle(p, false, true), n - 1)
  }

  /** Holding up long enough stops the paddle at y mod 10, the last
      position from which another step would leave the stage; it is flush
      with the top only when y started as a multiple of the speed. */
  lemma {:induction false} HoldingUpSettles(p: Player, n: nat)
    requires p.speed == PaddleSpeed && p.y >= 0
    requires n >= p.y / PaddleSpeed
    ensures HoldUp(p, n) == WithY(p, p.y % PaddleSpeed)
    decreases n
  {
    if n == 0 {
    } else if p.y >= PaddleSpeed {
      var q := StepPaddle(p, true, false);
      assert q.y == p.y - PaddleSpeed;
      HoldingUpSettles(q, n - 1);
    } else {
      assert StepPaddle(p, true, false) == p;
      HoldingUpSettles(p, n - 1);
    }
  }

  /** Holding down long enough stops the paddle at the largest y (lowest on
      screen) reachable in whole speed steps without passing the stage bottom. */
  lemma {:induction false} HoldingDownSettles(p: Player, n: nat)
    requires p.speed == PaddleSpeed && p.y + p.height <= StageBottom
    requires n >= (StageBottom - p.height - p.y) / PaddleSpeed
    ensures HoldDown(p, n) ==
      WithY(p, p.y + PaddleSpeed * ((StageBottom - p.height - p.y) / PaddleSpeed))
    decreases n
  {
    if n == 0 {
    } else if p.y + p.height + PaddleSpeed <= StageBottom {
      var q := StepPaddle(p, false, true);
      assert q.y == p.y + PaddleSpeed;
      HoldingDownSettles(q, n - 1);
    } else {
      assert StepPaddle(p, false, true) == p;
      HoldingDownSettles(p, n - 1);
    }
  }

  /** The stage bottom of 720 is below the bottom of a 960 x 500 window:
      holding S from the set-up position takes the first paddle to y = 640,
      entirely below the window's last row. */
  lemma PaddleCanLeaveWindow()
    ensures HoldDown(OnInit((960, 500), 10).player1, 64).y == 640
    ensures HoldDown(OnInit((960, 500), 10).player1, 64).y > OnInit((960, 500), 10).screenSize.1
  {
    HoldingDownSettles(OnInit((960, 500), 10).player1, 64);
  }
}
