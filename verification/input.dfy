/** The activation input (moveUp), resetGame, and the state the script sets up on load. */
module Input {
  import opened GameState
  import opened Pipes
  import opened Viewport
  import opened FrameStep

  /** resetGame: a new round on the start screen, keeping only the best score and the
      viewport; the single pipe waits at the right edge with no offset. */
  function Reset(g: Game): (r: Game)
    ensures r.mode == Start && |r.pipes| == 1 && r.score == 0
    ensures Valid(g) ==> Valid(r)
    ensures r.best == g.best && r.width == g.width && r.height == g.height && r.gap == g.gap
    ensures r.bX == StartX && r.bY == StartY && r.pipes == [Pipe(g.width, 0)]
  {
    g.(mode := Start, score := 0, bX := StartX, bY := StartY, pipes := [Pipe(g.width, 0)])
  }

  /** A reset forgets everything about the round it ends: two games that agree on the best
      score and the viewport reset to the same state, and resetting twice is resetting once. */
  lemma ResetForgetsRound(g: Game, h: Game)
    requires g.best == h.best && g.gap == h.gap && g.width == h.width && g.height == h.height
    ensures Reset(g) == Reset(h)
    ensures Reset(Reset(g)) == Reset(g)
  {
  }

  /** The state change moveUp makes before the draw() it may call: a flap in play, the
      switch to play from the start screen, and reset-then-play after game over. */
  function Activate(g: Game): (r: Game)
    ensures r.mode == Play
    ensures r.best == g.best && r.gap == g.gap && r.width == g.width && r.height == g.height
    ensures g.mode == Play ==>
      r.bY == g.bY - 25.0 && r.bX == g.bX && r.score == g.score && r.pipes == g.pipes
    ensures g.mode == Start ==> r == g.(mode := Play)
    ensures g.mode == GameOver ==>
      && r.score == 0 && r.bX == StartX && r.bY == StartY
      && r.pipes == [Pipe(g.width, 0)]
  {
    match g.mode
    case Play => g.(bY := g.bY + Lift)
    case Start => g.(mode := Play)
    case GameOver => Reset(g).(mode := Play)
  }

  /** moveUp. In play it only flaps. From the start screen and after game over it also
      calls draw() at once, so the first frame of the round runs inside the input. */
  function MoveUp(g: Game, a: Assets, rand: Random): (r: Outcome)
    ensures g.mode == Play ==> r == Running(g.(bY := g.bY - 25.0))
    ensures g.mode == Start ==> r == Draw(g.(mode := Play), a, rand)
    ensures g.mode == GameOver ==> r == Draw(Reset(g).(mode := Play), a, rand)
    // after game over the new round has already advanced one frame from its reset state
    ensures g.mode == GameOver && r.Running? ==>
      && |r.game.pipes| >= 1
      && r.game.pipes[0] == Pipe(g.width - Speed(g), 0)
      && r.game.bY == StartY + Gravity
      && r.game.score == CountX(r.game.pipes, ScoreMark)
    ensures r.Running? ==> r.game.best >= g.best
    ensures Valid(g) && r.Running? ==> Valid(r.game)
  {
    var g' := Activate(g);
    if g.mode == Play then Running(g') else Draw(g', a, rand)
  }

  /** The game the page starts with: the script's initial values (the canvas at its
      default 300 by 150 size and a portrait gap), then resizeCanvas(), then resetGame().
      `stored` is the best score read from storage. */
  function Load(stored: int, innerWidth: nat, innerHeight: nat, canvasWidth: nat, canvasHeight: nat): (r: Game)
    ensures Valid(r)
    ensures r.mode == Start && r.score == 0 && r.best == stored
    ensures r.bX == StartX && r.bY == StartY
    ensures r.pipes == [Pipe(canvasWidth, 0)]
    ensures r.width == canvasWidth && r.height == canvasHeight
    ensures r.gap == LandscapeGap <==> innerWidth > innerHeight
  {
    var initial := Game(Start, StartX, StartY, 0, stored, [Pipe(300, 0)], PortraitGap, 300, 150);
    Reset(Resize(initial, innerWidth, innerHeight, canvasWidth, canvasHeight))
  }
}
