/** resizeCanvas: the canvas size and the gate gap follow the window's orientation. */
module Viewport {
  import opened GameState

  /** `innerWidth / innerHeight > 1` under JavaScript division: a zero height gives
      +Infinity for a positive width and NaN (never greater than 1) for a zero width. */
  predicate AspectAboveOne(innerWidth: nat, innerHeight: nat) {
    if innerHeight == 0 then innerWidth > 0
    else innerWidth as real / innerHeight as real > 1.0
  }

  /** The gap chosen for a window: 150 in landscape, 120 otherwise. */
  function GapFor(innerWidth: nat, innerHeight: nat): (gap: int)
    ensures gap == LandscapeGap <==> innerWidth > innerHeight
    ensures gap == PortraitGap <==> innerWidth <= innerHeight
  {
    LandscapeIff(innerWidth, innerHeight);
    if AspectAboveOne(innerWidth, innerHeight) then LandscapeGap else PortraitGap
  }

  /** The aspect test of the source is the integer comparison width > height. */
  lemma LandscapeIff(innerWidth: nat, innerHeight: nat)
    ensures AspectAboveOne(innerWidth, innerHeight) <==> innerWidth > innerHeight
  {
  }

  /** A resize event. The canvas size the host derives from the window (a truncated
      multiple of it) is passed in as `canvasWidth` and `canvasHeight`. */
  function Resize(g: Game, innerWidth: nat, innerHeight: nat, canvasWidth: nat, canvasHeight: nat): (r: Game)
    ensures r.gap == LandscapeGap <==> innerWidth > innerHeight
    ensures r.gap == PortraitGap <==> innerWidth <= innerHeight
    ensures r.width == canvasWidth && r.height == canvasHeight
    ensures r.mode == g.mode && r.pipes == g.pipes && r.score == g.score && r.best == g.best
    ensures r.bX == g.bX && r.bY == g.bY
    ensures Valid(g) ==> Valid(r)
  {
    g.(width := canvasWidth, height := canvasHeight, gap := GapFor(innerWidth, innerHeight))
  }
}
