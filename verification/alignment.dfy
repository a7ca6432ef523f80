/** Consequences of the exact-equality tests at SpawnMark and ScoreMark. Pipes start at the
    right edge and move by the speed each frame, so they only ever sit on columns congruent
    to the canvas width modulo the speed. Both marks are odd, 1 modulo 2 and modulo 4; on a
    canvas whose width is not, no pipe ever lands on either mark. */
module Alignment {
  import opened GameState
  import opened Pipes
  import opened FrameStep
  import opened Input
  import opened Session

  /** Every pipe sits on the grid of columns the right edge reaches by whole moves. */
  predicate Aligned(g: Game) {
    forall j :: 0 <= j < |g.pipes| ==> g.pipes[j].x % Speed(g) == g.width % Speed(g)
  }

  /** The right edge is off the marks' grid. */
  predicate OffGrid(g: Game) {
    g.width % Speed(g) != SpawnMark % Speed(g)
  }

  lemma MarksOnOddGrid(d: int)
    requires d == 2 || d == 4
    ensures SpawnMark % d == 1 && ScoreMark % d == 1
  {
  }

  /** On an off-grid canvas a frame never hangs, appends no pipe and scores nothing, and
      the pipes stay on their grid. */
  lemma OffGridFrame(g: Game, a: Assets, rand: Random) returns (s: Game)
    requires g.mode != Start && Aligned(g) && OffGrid(g)
    ensures Draw(g, a, rand) == Running(s)
    ensures |s.pipes| == |g.pipes| && s.score == g.score && Aligned(s)
  {
    var d := Speed(g);
    var n := |g.pipes|;
    OffGridColumn(g.width, g.width, d);
    assert g.pipes[0..] == g.pipes;
    forall j | 0 <= j < n
      ensures g.pipes[j].x != SpawnMark + d
    {
      OffGridColumn(g.pipes[j].x, g.width, d);
    }
    s := Draw(g, a, rand).game;
    forall j | 0 <= j < n
      ensures s.pipes[..n][j].x != SpawnMark
    {
      OffGridColumn(g.pipes[j].x, g.width, d);
    }
    assert |s.pipes| == n;
    forall j | 0 <= j < n
      ensures s.pipes[j].x != ScoreMark && s.pipes[j].x % d == g.width % d
    {
      OffGridColumn(g.pipes[j].x, g.width, d);
    }
  }

  /** A column on the grid of an off-grid right edge is not one move short of SpawnMark,
      and one move later it is still on the grid and on neither mark. */
  lemma OffGridColumn(x: int, w: int, d: int)
    requires d == 2 || d == 4
    requires x % d == w % d && w % d != SpawnMark % d
    ensures x != SpawnMark + d
    ensures x - d != SpawnMark && x - d != ScoreMark
    ensures (x - d) % d == w % d
  {
    MarksOnOddGrid(d);
    assert (x - d) % d == x % d;
    assert (SpawnMark + d) % d == SpawnMark % d;
  }

  predicate NoResize(evs: seq<Event>) {
    forall j :: 0 <= j < |evs| ==> !evs[j].WindowResize?
  }

  /** Without resizes, a page loaded on an off-grid canvas never hangs, never shows a second
      pipe and never scores a point, however long it is played. */
  lemma {:induction false} OffGridRun(g: Game, evs: seq<Event>)
    requires Aligned(g) && OffGrid(g) && |g.pipes| == 1 && g.score == 0
    requires NoResize(evs)
    ensures Run(g, evs).Running?
    ensures |Run(g, evs).game.pipes| == 1 && Run(g, evs).game.score == 0
    decreases |evs|
  {
    if |evs| > 0 {
      var e := evs[0];
      assert !e.WindowResize?;
      var g' := OffGridApply(g, e);
      assert NoResize(evs[1..]);
      OffGridRun(g', evs[1..]);
    }
  }

  /** One tap or frame keeps the off-grid round invariant. */
  lemma OffGridApply(g: Game, e: Event) returns (g': Game)
    requires Aligned(g) && OffGrid(g) && |g.pipes| == 1 && g.score == 0
    requires !e.WindowResize?
    ensures Apply(g, e) == Running(g')
    ensures Aligned(g') && OffGrid(g') && |g'.pipes| == 1 && g'.score == 0
  {
    match e
    case Tap(a, rand) =>
      if g.mode == Play {
        g' := Apply(g, e).game;
      } else {
        var h := Activate(g);
        assert Speed(h) == Speed(g);
        g' := OffGridFrame(h, a, rand);
      }
    case AnimationFrame(a, rand) =>
      if g.mode == Play {
        g' := OffGridFrame(g, a, rand);
      } else {
        g' := g;
      }
  }

  /** The page as loaded: a landscape 800 by 600 canvas (speed 4, width 0 modulo 4) is off
      the grid, so the game it runs never shows a second pipe and never scores. */
  lemma LoadedOffGrid(stored: int, innerWidth: nat, innerHeight: nat, canvasWidth: nat, canvasHeight: nat, evs: seq<Event>)
    requires canvasWidth % (if canvasWidth > canvasHeight then 4 else 2) != 1
    requires NoResize(evs)
    ensures Run(Load(stored, innerWidth, innerHeight, canvasWidth, canvasHeight), evs).Running?
    ensures Run(Load(stored, innerWidth, innerHeight, canvasWidth, canvasHeight), evs).game.score == 0
    ensures |Run(Load(stored, innerWidth, innerHeight, canvasWidth, canvasHeight), evs).game.pipes| == 1
  {
    var g := Load(stored, innerWidth, innerHeight, canvasWidth, canvasHeight);
    MarksOnOddGrid(Speed(g));
    OffGridRun(g, evs);
  }
}
