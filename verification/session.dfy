/** The page as a sequence of host events: taps, animation frames and window resizes. */
module Session {
  import opened GameState
  import opened Pipes
  import opened Viewport
  import opened FrameStep
  import opened Input

  datatype Event =
    | Tap(assets: Assets, rand: Random)
    | AnimationFrame(assets: Assets, rand: Random)
    | WindowResize(innerWidth: nat, innerHeight: nat, canvasWidth: nat, canvasHeight: nat)

  /** One event. A frame callback is pending exactly while the mode is play: draw()
      schedules the next frame unless it ended the game, and every other way into play
      runs draw() at once. So an animation frame outside play does nothing. */
  function Apply(g: Game, e: Event): (r: Outcome)
    ensures r.Running? ==> r.game.best >= g.best
    ensures Valid(g) && r.Running? ==> Valid(r.game)
    ensures g.mode != GameOver && r.Running? ==>
      r.game.score >= g.score && |r.game.pipes| >= |g.pipes|
    ensures g.mode == GameOver && e.AnimationFrame? ==> r == Running(g)
    // only a tap after game over (which resets) can shorten the pipe list
    ensures r.Running? && |r.game.pipes| < |g.pipes| ==> g.mode == GameOver && e.Tap?
  {
    match e
    case Tap(a, rand) => MoveUp(g, a, rand)
    case AnimationFrame(a, rand) => if g.mode == Play then Draw(g, a, rand) else Running(g)
    case WindowResize(iw, ih, cw, ch) => Running(Resize(g, iw, ih, cw, ch))
  }

  /** The events in order; a hung page handles nothing more. */
  function Run(g: Game, evs: seq<Event>): Outcome
    decreases |evs|
  {
    if |evs| == 0 then Running(g)
    else
      match Apply(g, evs[0])
      case Hung => Hung
      case Running(g') => Run(g', evs[1..])
  }

  /** The best score never decreases, whatever the players do across rounds. */
  lemma {:induction false} RunKeepsBest(g: Game, evs: seq<Event>)
    ensures Run(g, evs).Running? ==> Run(g, evs).game.best >= g.best
    decreases |evs|
  {
    if |evs| > 0 && Apply(g, evs[0]).Running? {
      RunKeepsBest(Apply(g, evs[0]).game, evs[1..]);
    }
  }

  /** Every state the page reaches is valid: it always has a pipe, the bird's column never
      changes, and the gap is one of the two viewport gaps. */
  lemma {:induction false} RunKeepsValid(g: Game, evs: seq<Event>)
    requires Valid(g)
    ensures Run(g, evs).Running? ==> Valid(Run(g, evs).game)
    decreases |evs|
  {
    if |evs| > 0 && Apply(g, evs[0]).Running? {
      RunKeepsValid(Apply(g, evs[0]).game, evs[1..]);
    }
  }

  predicate OnlyFrames(evs: seq<Event>) {
    forall j :: 0 <= j < |evs| ==> evs[j].AnimationFrame?
  }

  /** Once the game is over, frames change nothing: the loop is no longer scheduled. */
  lemma {:induction false} FramesAfterGameOver(g: Game, evs: seq<Event>)
    requires g.mode == GameOver && OnlyFrames(evs)
    ensures Run(g, evs) == Running(g)
    decreases |evs|
  {
    if |evs| > 0 {
      assert evs[0].AnimationFrame?;
      FramesAfterGameOver(g, evs[1..]);
    }
  }

  /** Without input the bird falls by exactly the gravity constant per frame for as long as
      the round lasts. */
  lemma {:induction false} FallWithoutInput(g: Game, evs: seq<Event>)
    requires g.mode == Play && OnlyFrames(evs)
    requires Run(g, evs).Running? && Run(g, evs).game.mode == Play
    ensures Run(g, evs).game.bY == g.bY + |evs| as real * Gravity
    decreases |evs|
  {
    if |evs| > 0 {
      var e := evs[0];
      assert e.AnimationFrame?;
      var g' := Draw(g, e.assets, e.rand).game;
      assert Run(g, evs) == Run(g', evs[1..]);
      if g'.mode == GameOver {
        FramesAfterGameOver(g', evs[1..]);
      } else {
        FallWithoutInput(g', evs[1..]);
      }
    }
  }
}
