/** One call of draw() with the drawing stripped out: the pipe loop, gravity and the
    best-score update. */
module Frame {
  import opened GameState
  import opened Pipes
  import opened Collision

  /** The pipe loop's state between iterations: the game as the loop has left it, the
      loop index `i`, and `k`, how many random draws the loop has used. */
  datatype Cursor = Cursor(game: Game, i: nat, k: nat)

  /** One iteration of the pipe loop on pipe `i`: move it, append a pipe at the right edge
      when it lands on SpawnMark, end the game on a crash, score when it lands on
      ScoreMark. The appended pipe sits past the end, so the loop reaches it later. */
  function Step(c: Cursor, a: Assets, rand: Random): (c': Cursor)
    requires c.i < |c.game.pipes|
    ensures c'.i == c.i + 1
    ensures c'.game.bX == c.game.bX && c'.game.bY == c.game.bY && c'.game.best == c.game.best
    ensures c'.game.gap == c.game.gap && c'.game.width == c.game.width && c'.game.height == c.game.height
  {
    var g := c.game;
    var p := Moved(g.pipes[c.i], Speed(g));
    var spawn := p.x == SpawnMark;
    var pushed := if spawn then [Pipe(g.width, SpawnY(rand(c.k), a.pipeHeight))] else [];
    var mode := if Crash(g, a, p) then GameOver else g.mode;
    var score := if p.x == ScoreMark then g.score + 1 else g.score;
    Cursor(g.(pipes := g.pipes[c.i := p] + pushed, mode := mode, score := score),
           c.i + 1, if spawn then c.k + 1 else c.k)
  }

  /** What one iteration does. Pipe `i` has moved and every other pipe is as it was; one
      pipe is appended at the right edge exactly when pipe `i` landed on SpawnMark; one point
      is scored exactly when it landed on ScoreMark; the game ends exactly on a crash with it. */
  lemma StepEffect(c: Cursor, a: Assets, rand: Random, c': Cursor)
    requires c.i < |c.game.pipes| && c' == Step(c, a, rand)
    ensures var n := |c.game.pipes|; var p := Moved(c.game.pipes[c.i], Speed(c.game));
      && |c'.game.pipes| >= n && c'.game.pipes[..n] == c.game.pipes[c.i := p]
      && (p.x == SpawnMark ==> c'.game.pipes[n..] == [Pipe(c.game.width, SpawnY(rand(c.k), a.pipeHeight))] && c'.k == c.k + 1)
      && (p.x != SpawnMark ==> |c'.game.pipes| == n && c'.k == c.k)
    ensures var p := Moved(c.game.pipes[c.i], Speed(c.game));
      && c'.game.score == c.game.score + (if p.x == ScoreMark then 1 else 0)
      && (c'.game.mode == GameOver <==> c.game.mode == GameOver || Crash(c.game, a, p))
      && (c'.game.mode == c.game.mode || c'.game.mode == GameOver)
  {
  }

  /** Unvisited pipes that will land on SpawnMark when moved. */
  function Pending(c: Cursor): nat
    requires c.i <= |c.game.pipes|
  {
    CountX(c.game.pipes[c.i..], SpawnMark + Speed(c.game))
  }

  /** The loop ends unless a pipe appended at the right edge would itself land on
      SpawnMark and some unvisited pipe is about to append one. */
  predicate Finishes(c: Cursor) {
    && c.i <= |c.game.pipes|
    && (c.game.width != SpawnMark + Speed(c.game) || Pending(c) == 0)
  }

  /** How an iteration changes the number of pending pipes: the visited one leaves the
      unvisited range, and an appended one joins it if it will land on SpawnMark too. */
  lemma StepPending(c: Cursor, a: Assets, rand: Random)
    requires c.i < |c.game.pipes|
    ensures var g := c.game; var c' := Step(c, a, rand);
      var mark := SpawnMark + Speed(g);
      var here := g.pipes[c.i].x == mark;
      && |c'.game.pipes| == |g.pipes| + (if here then 1 else 0)
      && Pending(c') + (if here then 1 else 0)
         == Pending(c) + (if here && g.width == mark then 1 else 0)
      && (here ==> Pending(c) >= 1)
  {
    var g := c.game;
    var c' := Step(c, a, rand);
    var d := Speed(g);
    var mark := SpawnMark + d;
    var p := g.pipes;
    var p' := c'.game.pipes;
    var rest := p[c.i + 1..];
    assert p[c.i..] == [p[c.i]] + rest;
    CountXAppend([p[c.i]], rest, mark);
    var pushed := p'[|p|..];
    assert p' == p[c.i := Moved(p[c.i], d)] + pushed;
    assert p'[c.i + 1..] == rest + pushed;
    CountXAppend(rest, pushed, mark);
  }

  lemma StepProgress(c: Cursor, a: Assets, rand: Random)
    requires Finishes(c) && c.i < |c.game.pipes|
    ensures Finishes(Step(c, a, rand))
    ensures |Step(c, a, rand).game.pipes| - (c.i + 1) + Pending(Step(c, a, rand))
            < |c.game.pipes| - c.i + Pending(c)
  {
    StepPending(c, a, rand);
  }

  /** What the loop from index `c.i` leaves behind in `r`. Only the pipes, mode and score
      change. Every visited pipe has moved exactly once, and unvisited originals are not
      possible at the end. Pipes appended past the original end sit at the right edge
      minus one move, with offsets from the draws after `c.k`. */
  ghost predicate PipesAfter(c: Cursor, a: Assets, rand: Random, r: Game) {
    var g := c.game;
    && r == g.(pipes := r.pipes, mode := r.mode, score := r.score)
    && c.i <= |g.pipes| <= |r.pipes|
    && (forall j :: 0 <= j < c.i ==> r.pipes[j] == g.pipes[j])
    && (forall j :: c.i <= j < |g.pipes| ==> r.pipes[j] == Moved(g.pipes[j], Speed(g)))
    && (forall j :: |g.pipes| <= j < |r.pipes| ==>
         r.pipes[j] == Pipe(g.width - Speed(g), SpawnY(rand(c.k + (j - |g.pipes|)), a.pipeHeight)))
  }

  /** One pipe is appended per visited pipe now at SpawnMark, one point is scored per
      visited pipe now at ScoreMark. */
  ghost predicate CountsAfter(c: Cursor, r: Game) {
    && c.i <= |r.pipes|
    && |r.pipes| == |c.game.pipes| + CountX(r.pipes[c.i..], SpawnMark)
    && r.score == c.game.score + CountX(r.pipes[c.i..], ScoreMark)
  }

  /** The game is over afterwards exactly when it was before or a visited pipe crashes;
      otherwise the mode is untouched. */
  ghost predicate ModeAfter(c: Cursor, a: Assets, r: Game) {
    && (r.mode == GameOver <==>
         c.game.mode == GameOver || exists j :: c.i <= j < |r.pipes| && Crash(c.game, a, r.pipes[j]))
    && (r.mode == c.game.mode || r.mode == GameOver)
  }

  ghost predicate Visits(c: Cursor, a: Assets, rand: Random, r: Game) {
    && PipesAfter(c, a, rand, r)
    && CountsAfter(c, r)
    && ModeAfter(c, a, r)
  }

  /** The pipe loop from index `c.i` to the end of the (growing) pipe list. */
  function Scan(c: Cursor, a: Assets, rand: Random): (r: Game)
    requires Finishes(c)
    decreases |c.game.pipes| - c.i + Pending(c)
  {
    if c.i == |c.game.pipes| then c.game
    else
      StepProgress(c, a, rand);
      Scan(Step(c, a, rand), a, rand)
  }

  /** The loop's result: the visited pipes moved, one append per pipe landing on
      SpawnMark, one point per pipe landing on ScoreMark, game over on any crash; and no
      append at all when no unvisited pipe is pending. */
  lemma {:induction false} ScanVisits(c: Cursor, a: Assets, rand: Random)
    requires Finishes(c)
    ensures Visits(c, a, rand, Scan(c, a, rand))
    ensures Pending(c) == 0 ==> |Scan(c, a, rand).pipes| == |c.game.pipes|
    decreases |c.game.pipes| - c.i + Pending(c)
  {
    var r := Scan(c, a, rand);
    if c.i == |c.game.pipes| {
      assert c.game.pipes[c.i..] == [];
    } else {
      StepProgress(c, a, rand);
      StepPending(c, a, rand);
      var c' := Step(c, a, rand);
      assert r == Scan(c', a, rand);
      ScanVisits(c', a, rand);
      StepPipes(c, a, rand, r);
      StepCounts(c, a, rand, r);
      StepMode(c, a, rand, r);
    }
  }

  lemma StepPipes(c: Cursor, a: Assets, rand: Random, r: Game)
    requires c.i < |c.game.pipes|
    requires PipesAfter(Step(c, a, rand), a, rand, r)
    ensures PipesAfter(c, a, rand, r)
  {
  }

  lemma StepCounts(c: Cursor, a: Assets, rand: Random, r: Game)
    requires c.i < |c.game.pipes|
    requires PipesAfter(Step(c, a, rand), a, rand, r)
    requires CountsAfter(Step(c, a, rand), r)
    ensures CountsAfter(c, r)
  {
  }

  lemma StepMode(c: Cursor, a: Assets, rand: Random, r: Game)
    requires c.i < |c.game.pipes|
    requires PipesAfter(Step(c, a, rand), a, rand, r)
    requires ModeAfter(Step(c, a, rand), a, r)
    ensures ModeAfter(c, a, r)
  {
    var g := c.game;
    var g' := Step(c, a, rand).game;
    assert r.pipes[c.i] == Moved(g.pipes[c.i], Speed(g));
    forall j | c.i <= j < |r.pipes|
      ensures Crash(g', a, r.pipes[j]) == Crash(g, a, r.pipes[j])
    {
      CrashIgnoresProgress(g, g', a, r.pipes[j]);
    }
  }

  /** Whether draw()'s pipe loop never ends on this state. */
  predicate Hangs(g: Game) {
    && g.mode != Start
    && g.width == SpawnMark + Speed(g)
    && CountX(g.pipes, SpawnMark + Speed(g)) > 0
  }
}

module FrameStep {
  import opened GameState
  import opened Pipes
  import opened Collision
  import opened Frame

  /** One call of draw(). On the start screen it only draws. Otherwise it runs the pipe loop
      over the list as it grows, adds gravity even when the loop just ended the game, and on
      game over raises the best score to the round's score. */
  function Draw(g: Game, a: Assets, rand: Random): (r: Outcome)
    ensures g.mode == Start ==> r == Running(g)
    ensures r.Hung? <==> Hangs(g)
    // pipes: every pipe moves left by the speed, keeping its offset; the list only grows,
    // and the pipes appended this frame were placed at the right edge and moved already
    ensures r.Running? && g.mode != Start ==>
      && |r.game.pipes| >= |g.pipes|
      && (forall j :: 0 <= j < |g.pipes| ==> r.game.pipes[j] == Moved(g.pipes[j], Speed(g)))
      && (forall j :: |g.pipes| <= j < |r.game.pipes| ==> r.game.pipes[j].x == g.width - Speed(g))
    ensures r.Running? && g.mode != Start && ValidRandom(rand) && a.pipeHeight > 0 ==>
      forall j :: |g.pipes| <= j < |r.game.pipes| ==> -(a.pipeHeight as int) <= r.game.pipes[j].y < 0
    // spawning: one new pipe per original pipe that lands exactly on SpawnMark
    ensures r.Running? && g.mode != Start ==>
      && |r.game.pipes| == |g.pipes| + CountX(r.game.pipes[..|g.pipes|], SpawnMark)
      && (|r.game.pipes| > |g.pipes| <==> exists j :: 0 <= j < |g.pipes| && r.game.pipes[j].x == SpawnMark)
    // scoring: one point per pipe that lands exactly on ScoreMark
    ensures r.Running? && g.mode != Start ==> r.game.score == g.score + CountX(r.game.pipes, ScoreMark)
    // game over exactly when some visited pipe crashes, never back to play
    ensures r.Running? && g.mode != Start ==>
      (r.game.mode == GameOver <==>
         g.mode == GameOver || exists j :: 0 <= j < |r.game.pipes| && Crash(g, a, r.game.pipes[j]))
    ensures r.Running? ==> r.game.mode == g.mode || r.game.mode == GameOver
    // gravity and best score
    ensures r.Running? && g.mode != Start ==> r.game.bY == g.bY + Gravity
    ensures r.Running? && g.mode != Start ==>
      r.game.best == if r.game.mode == GameOver then Max(g.best, r.game.score) else g.best
    ensures r.Running? ==>
      && r.game.bX == g.bX && r.game.gap == g.gap
      && r.game.width == g.width && r.game.height == g.height
  {
    if g.mode == Start then Running(g)
    else
      var c := Cursor(g, 0, 0);
      assert g.pipes[0..] == g.pipes;
      if !Finishes(c) then Hung
      else
        var s := Scan(c, a, rand);
        ScanVisits(c, a, rand);
        Settled(g, a, rand, s);
        var best := if s.mode == GameOver && s.score > s.best then s.score else s.best;
        Running(s.(bY := s.bY + Gravity, best := best))
  }

  /** The pipe loop's contract restated for a whole frame, starting at pipe 0. */
  lemma Settled(g: Game, a: Assets, rand: Random, s: Game)
    requires g.mode != Start
    requires Finishes(Cursor(g, 0, 0))
    requires Visits(Cursor(g, 0, 0), a, rand, s)
    requires Pending(Cursor(g, 0, 0)) == 0 ==> |s.pipes| == |g.pipes|
    ensures s == g.(pipes := s.pipes, mode := s.mode, score := s.score)
    ensures |s.pipes| >= |g.pipes|
    ensures forall j :: 0 <= j < |g.pipes| ==> s.pipes[j] == Moved(g.pipes[j], Speed(g))
    ensures forall j :: |g.pipes| <= j < |s.pipes| ==> s.pipes[j].x == g.width - Speed(g)
    ensures ValidRandom(rand) && a.pipeHeight > 0 ==>
      forall j :: |g.pipes| <= j < |s.pipes| ==> -(a.pipeHeight as int) <= s.pipes[j].y < 0
    ensures |s.pipes| == |g.pipes| + CountX(s.pipes[..|g.pipes|], SpawnMark)
    ensures |s.pipes| > |g.pipes| <==> exists j :: 0 <= j < |g.pipes| && s.pipes[j].x == SpawnMark
    ensures s.score == g.score + CountX(s.pipes, ScoreMark)
    ensures s.mode == GameOver <==>
      g.mode == GameOver || exists j :: 0 <= j < |s.pipes| && Crash(g, a, s.pipes[j])
    ensures s.mode == g.mode || s.mode == GameOver
  {
    assert s.pipes[0..] == s.pipes;
    AppendedOffsets(g, a, rand, s);
    AppendedCount(g, s);
    var n := |g.pipes|;
    assert |s.pipes[..n]| == n;
    if |s.pipes| > n {
      assert CountX(s.pipes[..n], SpawnMark) > 0;
      var j :| 0 <= j < n && s.pipes[..n][j].x == SpawnMark;
      assert s.pipes[j].x == SpawnMark;
    }
    if exists j :: 0 <= j < n && s.pipes[j].x == SpawnMark {
      var j :| 0 <= j < n && s.pipes[j].x == SpawnMark;
      assert s.pipes[..n][j].x == SpawnMark;
    }
  }

  lemma AppendedOffsets(g: Game, a: Assets, rand: Random, s: Game)
    requires Visits(Cursor(g, 0, 0), a, rand, s)
    ensures ValidRandom(rand) && a.pipeHeight > 0 ==>
      forall j :: |g.pipes| <= j < |s.pipes| ==> -(a.pipeHeight as int) <= s.pipes[j].y < 0
  {
  }

  /** Appended pipes never sit on SpawnMark when the loop finishes, so all the pipes that
      triggered an append are originals. */
  lemma AppendedCount(g: Game, s: Game)
    requires g.mode != Start
    requires Finishes(Cursor(g, 0, 0))
    requires Pending(Cursor(g, 0, 0)) == 0 ==> |s.pipes| == |g.pipes|
    requires |g.pipes| <= |s.pipes|
    requires |s.pipes| == |g.pipes| + CountX(s.pipes[0..], SpawnMark)
    requires forall j :: 0 <= j < |g.pipes| ==> s.pipes[j] == Moved(g.pipes[j], Speed(g))
    requires forall j :: |g.pipes| <= j < |s.pipes| ==> s.pipes[j].x == g.width - Speed(g)
    ensures |s.pipes| == |g.pipes| + CountX(s.pipes[..|g.pipes|], SpawnMark)
  {
    var n := |g.pipes|;
    assert g.pipes[0..] == g.pipes;
    assert s.pipes[0..] == s.pipes[..n] + s.pipes[n..];
    CountXAppend(s.pipes[..n], s.pipes[n..], SpawnMark);
    if g.width - Speed(g) == SpawnMark {
      // no original lands on SpawnMark, so nothing was appended
      assert s.pipes[..n] == s.pipes;
    } else {
      assert CountX(s.pipes[n..], SpawnMark) == 0;
    }
  }
}
