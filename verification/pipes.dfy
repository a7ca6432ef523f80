/** Pipe arithmetic: moving a pipe, counting pipes at a column, and the random vertical
    offset of a freshly spawned pipe. */
module Pipes {
  import opened GameState

  /** The host's random source, one draw of `Math.random()` per index. */
  type Random = nat -> real

  ghost predicate ValidRandom(rand: Random) {
    forall k: nat :: 0.0 <= rand(k) < 1.0
  }

  /** A pipe after one frame's move at speed `d`. */
  function Moved(p: Pipe, d: int): (q: Pipe)
    ensures q.y == p.y && q.x + d == p.x
  {
    Pipe(p.x - d, p.y)
  }

  /** How many pipes of `s` sit exactly at column `x`. */
  function CountX(s: seq<Pipe>, x: int): (n: nat)
    ensures n <= |s|
    ensures n == 0 <==> forall j :: 0 <= j < |s| ==> s[j].x != x
  {
    if |s| == 0 then 0
    else (if s[0].x == x then 1 else 0) + CountX(s[1..], x)
  }

  lemma {:induction false} CountXAppend(s: seq<Pipe>, t: seq<Pipe>, x: int)
    ensures CountX(s + t, x) == CountX(s, x) + CountX(t, x)
    decreases |s|
  {
    if |s| == 0 {
      assert s + t == t;
    } else {
      assert (s + t)[1..] == s[1..] + t;
      CountXAppend(s[1..], t, x);
    }
  }

  /** `Math.floor(Math.random() * h) - h`: the north pipe's top for a spawned pipe, from a
      random draw `r` and the north pipe image height `h`. */
  function SpawnY(r: real, h: nat): (y: int)
    ensures 0.0 <= r < 1.0 && h > 0 ==> -(h as int) <= y < 0
    ensures 0.0 <= r < 1.0 && h == 0 ==> y == 0
  {
    var v := r * h as real;
    ScaledDraw(r, h, v);
    FloorBounds(v, h);
    v.Floor - h
  }

  /** A draw in [0, 1) scaled by `h` stays in [0, h), and is 0 when `h` is 0. */
  lemma ScaledDraw(r: real, h: nat, v: real)
    requires v == r * h as real
    ensures 0.0 <= r < 1.0 ==> 0.0 <= v && (h > 0 ==> v < h as real)
    ensures h == 0 ==> v == 0.0
  {
    if 0.0 <= r < 1.0 && h > 0 {
      assert (1.0 - r) * h as real > 0.0;
    }
  }

  lemma FloorBounds(v: real, h: nat)
    ensures 0.0 <= v ==> 0 <= v.Floor
    ensures v < h as real ==> v.Floor < h
  {
    assert v.Floor as real <= v;
  }

  /** Every offset in [-h, 0) is produced by some random draw, so the spawn range is exactly
      that interval. */
  lemma SpawnYOnto(h: nat, y: int)
    requires h > 0 && -(h as int) <= y < 0
    ensures exists r: real :: 0.0 <= r < 1.0 && SpawnY(r, h) == y
  {
    var r := Quotient((y + h) as real, h as real);
    assert r * h as real == (y + h) as real;
    assert SpawnY(r, h) == y;
  }

  /** `v / d` for 0 <= v < d, which lies in [0, 1) and scales back to `v`. */
  function Quotient(v: real, d: real): (q: real)
    requires 0.0 <= v < d
    ensures 0.0 <= q < 1.0 && q * d == v
  {
    var q := v / d;
    assert q * d == v;
    assert q >= 1.0 ==> (q - 1.0) * d >= 0.0;
    q
  }
}
