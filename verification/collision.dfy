/** The game-over test draw() evaluates once per pipe. */
module Collision {
  import opened GameState

  /** The bird's box overlaps the pipe's columns and is not strictly inside the gate:
      its top is at or above the north pipe's bottom, or its bottom at or below the
      south pipe's top. */
  predicate HitsPipe(g: Game, a: Assets, p: Pipe) {
    && g.bX + BirdWidth >= p.x
    && g.bX <= p.x + a.pipeWidth
    && (|| g.bY <= (p.y + a.pipeHeight) as real
        || g.bY + BirdHeight as real >= (p.y + a.pipeHeight + g.gap) as real)
  }

  /** The bird's bottom reaches the foreground strip. */
  predicate HitsGround(g: Game, a: Assets) {
    g.bY + BirdHeight as real >= (g.height - a.fgHeight) as real
  }

  predicate Crash(g: Game, a: Assets, p: Pipe) {
    HitsPipe(g, a, p) || HitsGround(g, a)
  }

  /** Reading of the test as geometry. A bird strictly between the two halves of the gate
      and clear of the ground never crashes, wherever the pipe is; a bird overlapping the
      pipe's columns crashes as soon as it touches either half; a bird clear of the pipe's
      columns and of the ground never crashes on it; and touching the ground crashes
      whatever the pipe. */
  lemma GateClearance(g: Game, a: Assets, p: Pipe)
    ensures (p.y + a.pipeHeight) as real < g.bY
         && g.bY + BirdHeight as real < (p.y + a.pipeHeight + g.gap) as real
         && !HitsGround(g, a)
         ==> !Crash(g, a, p)
    ensures p.x - BirdWidth <= g.bX <= p.x + a.pipeWidth
         && !((p.y + a.pipeHeight) as real < g.bY
              && g.bY + BirdHeight as real < (p.y + a.pipeHeight + g.gap) as real)
         ==> Crash(g, a, p)
    ensures !(p.x - BirdWidth <= g.bX <= p.x + a.pipeWidth) && !HitsGround(g, a)
         ==> !Crash(g, a, p)
    ensures HitsGround(g, a) ==> Crash(g, a, p)
  {
  }

  /** The test reads only the bird, the gap and the canvas height, so a frame's own
      updates to the pipes, score and mode do not change its answer. */
  lemma CrashIgnoresProgress(g: Game, h: Game, a: Assets, p: Pipe)
    requires h.bX == g.bX && h.bY == g.bY && h.gap == g.gap && h.height == g.height
    ensures Crash(h, a, p) == Crash(g, a, p)
  {
  }
}
