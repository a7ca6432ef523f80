/** Why a frame is `Hung`: the same pipe loop run for a bounded number of iterations never
    reaches its end on such a state, and does reach it on every other state. */
module Freeze {
  import opened GameState
  import opened Pipes
  import opened Frame
  import opened FrameStep

  datatype Bounded = Done(game: Game) | OutOfFuel

  /** The pipe loop from `c.i`, stopped after `fuel` iterations. */
  function ScanBounded(c: Cursor, a: Assets, rand: Random, fuel: nat): Bounded
    requires c.i <= |c.game.pipes|
    decreases fuel
  {
    if c.i == |c.game.pipes| then Done(c.game)
    else if fuel == 0 then OutOfFuel
    else ScanBounded(Step(c, a, rand), a, rand, fuel - 1)
  }

  /** With the right edge one move away from SpawnMark, a pending pipe keeps the loop
      going: visiting it appends a pipe that is pending in turn. */
  lemma {:induction false} NeverFinishes(c: Cursor, a: Assets, rand: Random, fuel: nat)
    requires c.i <= |c.game.pipes|
    requires c.game.width == SpawnMark + Speed(c.game) && Pending(c) > 0
    ensures ScanBounded(c, a, rand, fuel) == OutOfFuel
    decreases fuel
  {
    if c.i == |c.game.pipes| {
      assert false;
    } else if fuel > 0 {
      StepPending(c, a, rand);
      NeverFinishes(Step(c, a, rand), a, rand, fuel - 1);
    }
  }

  /** Otherwise the loop ends within its measure, with the result of `Scan`. */
  lemma {:induction false} FinishesWithin(c: Cursor, a: Assets, rand: Random, fuel: nat)
    requires Finishes(c)
    requires fuel >= |c.game.pipes| - c.i + Pending(c)
    ensures ScanBounded(c, a, rand, fuel) == Done(Scan(c, a, rand))
    decreases fuel
  {
    if c.i < |c.game.pipes| {
      var c' := Step(c, a, rand);
      StepProgress(c, a, rand);
      FinishesWithin(c', a, rand, fuel - 1);
      assert ScanBounded(c, a, rand, fuel) == ScanBounded(c', a, rand, fuel - 1);
      assert Scan(c, a, rand) == Scan(c', a, rand);
    }
  }

  /** A hung frame is a loop that runs out of every budget; a running one ends within
      twice the number of pipes it started with. */
  lemma HungIffUnbounded(g: Game, a: Assets, rand: Random, fuel: nat)
    requires g.mode != Start
    ensures Draw(g, a, rand).Hung? ==> ScanBounded(Cursor(g, 0, 0), a, rand, fuel) == OutOfFuel
    ensures Draw(g, a, rand).Running? ==> ScanBounded(Cursor(g, 0, 0), a, rand, 2 * |g.pipes|).Done?
  {
    var c := Cursor(g, 0, 0);
    assert g.pipes[0..] == g.pipes;
    if Draw(g, a, rand).Hung? {
      NeverFinishes(c, a, rand, fuel);
    } else {
      FinishesWithin(c, a, rand, 2 * |g.pipes|);
    }
  }
}
