/** The game-state record of flappyBird.js: the script's globals gathered into one
    immutable value, plus the constants the script fixes at load time. */
module GameState {

  /** Bird sprite size in pixels. */
  const BirdWidth: int := 75
  const BirdHeight: int := 60

  /** Per-frame downward drift and the upward jump of one flap. */
  const Gravity: real := 1.5
  const Lift: real := -25.0

  /** Where a new round puts the bird. */
  const StartX: int := 10
  const StartY: real := 150.0

  /** Gate gap for a landscape and for a portrait window. */
  const LandscapeGap: int := 150
  const PortraitGap: int := 120

  /** A pipe whose moved x lands exactly on SpawnMark appends a new pipe; one that lands
      exactly on ScoreMark scores a point. */
  const SpawnMark: int := 125
  const ScoreMark: int := 5

  datatype Mode = Start | Play | GameOver

  /** One north/south pipe pair: left edge `x`, top of the north pipe `y`. */
  datatype Pipe = Pipe(x: int, y: int)

  /** Natural sizes of the loaded images the logic reads (0 while an image is not loaded). */
  datatype Assets = Assets(pipeHeight: nat, pipeWidth: nat, fgHeight: nat)

  /** Everything the gameplay logic reads or writes. `width` and `height` are the canvas
      size, which the canvas keeps as integers. */
  datatype Game = Game(
    mode: Mode,
    bX: int,
    bY: real,
    score: nat,
    best: int,
    pipes: seq<Pipe>,
    gap: int,
    width: nat,
    height: nat)

  /** The result of running code that may never return: a frame whose pipe loop keeps
      appending pipes it then has to visit freezes the page. */
  datatype Outcome = Running(game: Game) | Hung

  /** Pixels every pipe moves left per frame: 4 on a canvas wider than tall, else 2. */
  function Speed(g: Game): (d: int)
    ensures d == 2 || d == 4
    ensures d == 4 <==> g.width > g.height
  {
    if g.width > g.height then 4 else 2
  }

  /** What stays true of every reachable state: at least one pipe, the bird's column is
      fixed, and the gap is one of the two the viewport chooses. */
  predicate Valid(g: Game) {
    && |g.pipes| >= 1
    && g.bX == StartX
    && (g.gap == LandscapeGap || g.gap == PortraitGap)
  }

  function Max(a: int, b: int): (m: int)
    ensures m >= a && m >= b
    ensures m == a || m == b
  {
    if a >= b then a else b
  }
}
