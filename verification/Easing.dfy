/**
 * Exponential easing of the sent colours (entertainment/streamer.go: smoothComponent,
 * smoothToward). The weight alpha is a real in (0, 1].
 */
module Easing {
  import opened Common
  import opened HueStream

  /** snapColorDelta. */
  const SNAP: int := 256

  /** math.Round: to the nearest integer, halves away from zero. */
  function Round(x: real): int {
    if x >= 0.0 then (x + 0.5).Floor else -((0.5 - x).Floor)
  }

  predicate Weight(alpha: real) {
    0.0 < alpha <= 1.0
  }

  function Abs(x: int): nat {
    if x < 0 then -x else x
  }

  lemma ScaledDistance(alpha: real, d: int)
    requires Weight(alpha)
    ensures d >= 0 ==> 0.0 <= alpha * (d as real) <= d as real
    ensures d <= 0 ==> d as real <= alpha * (d as real) <= 0.0
  {
    var x := d as real;
    if d >= 0 {
      assert alpha * x <= 1.0 * x;
    } else {
      assert alpha * x >= 1.0 * x;
    }
  }

  lemma RoundNear(x: real)
    ensures x - 0.5 <= Round(x) as real <= x + 0.5
    ensures x >= 0.0 ==> Round(x) >= 0
    ensures x <= 0.0 ==> Round(x) <= 0
  {
  }

  /** The eased step from distance `d`: between nothing and all of it. */
  lemma StepBounds(alpha: real, d: int)
    requires Weight(alpha)
    ensures d >= 0 ==> 0 <= Round(alpha * (d as real)) <= d
    ensures d <= 0 ==> d <= Round(alpha * (d as real)) <= 0
  {
    ScaledDistance(alpha, d);
    RoundNear(alpha * (d as real));
  }

  /** smoothComponent. The result stays between current and target, so it fits 16 bits. */
  function Smooth(cur: Word, tgt: Word, alpha: real): (r: Word)
    requires Weight(alpha)
    ensures (cur <= tgt ==> cur <= r <= tgt) && (tgt <= cur ==> tgt <= r <= cur)
    ensures Abs(tgt - r) <= Abs(tgt - cur)
    ensures Abs(tgt - cur) <= SNAP ==> r == tgt
  {
    var d: int := tgt - cur;
    if -SNAP <= d <= SNAP then tgt
    else
      StepBounds(alpha, d);
      (cur as int) + Round(alpha * (d as real))
  }

  /** smoothToward. */
  function SmoothToward(current: Channel, target: Channel, alpha: real): Channel
    requires Weight(alpha)
  {
    Channel(target.id, Smooth(current.a, target.a, alpha), Smooth(current.b, target.b, alpha), Smooth(current.c, target.c, alpha))
  }

  /** The component after `n` ticks towards a fixed target. */
  function Eased(cur: Word, tgt: Word, alpha: real, n: nat): (r: Word)
    requires Weight(alpha)
    decreases n
  {
    if n == 0 then cur else Eased(Smooth(cur, tgt, alpha), tgt, alpha, n - 1)
  }

  lemma EasedFirst(cur: Word, tgt: Word, alpha: real, next: Word, n: nat)
    requires Weight(alpha) && next == Smooth(cur, tgt, alpha)
    ensures Eased(cur, tgt, alpha, n + 1) == Eased(next, tgt, alpha, n)
  {
  }

  /** One more tick eases the last value once more. */
  lemma {:induction false} EasedOnce(cur: Word, tgt: Word, alpha: real, n: nat)
    requires Weight(alpha)
    ensures Eased(cur, tgt, alpha, n + 1) == Smooth(Eased(cur, tgt, alpha, n), tgt, alpha)
    decreases n
  {
    var next := Smooth(cur, tgt, alpha);
    EasedFirst(cur, tgt, alpha, next, n);
    if n > 0 {
      EasedFirst(cur, tgt, alpha, next, n - 1);
      EasedOnce(next, tgt, alpha, n - 1);
    }
  }

  /** Large enough that the smallest distance that does not snap still moves. */
  predicate Moves(alpha: real) {
    257.0 * alpha >= 0.5
  }

  lemma StepIsReal(alpha: real, d: int)
    requires Weight(alpha) && Moves(alpha) && Abs(d) > SNAP
    ensures Abs(Round(alpha * (d as real))) >= 1
  {
    var x := d as real;
    if d > 0 {
      assert alpha * x >= alpha * 257.0;
    } else {
      assert alpha * x <= alpha * (-257.0);
    }
  }

  lemma EachTickCloser(cur: Word, tgt: Word, alpha: real)
    requires Weight(alpha) && Moves(alpha) && cur != tgt
    ensures Abs(tgt - Smooth(cur, tgt, alpha)) < Abs(tgt - cur)
  {
    var d: int := tgt - cur;
    if Abs(d) > SNAP {
      StepIsReal(alpha, d);
      StepBounds(alpha, d);
    }
  }

  /** Easing reaches a fixed target exactly, in no more ticks than the distance. */
  lemma {:induction false} ReachesTarget(cur: Word, tgt: Word, alpha: real) returns (n: nat)
    requires Weight(alpha) && Moves(alpha)
    ensures n <= Abs(tgt - cur) && Eased(cur, tgt, alpha, n) == tgt
    decreases Abs(tgt - cur)
  {
    if cur == tgt {
      n := 0;
    } else {
      EachTickCloser(cur, tgt, alpha);
      n := ReachesTarget(Smooth(cur, tgt, alpha), tgt, alpha);
      n := n + 1;
    }
  }

  lemma SmallStepIsNone(alpha: real, d: int)
    requires Weight(alpha) && !Moves(alpha) && Abs(d) == 257
    ensures Round(alpha * (d as real)) == 0
  {
    assert 0.0 <= 257.0 * alpha < 0.5;
    assert alpha * (d as real) == if d > 0 then 257.0 * alpha else -(257.0 * alpha);
  }

  lemma {:induction false} ArrivedStays(cur: Word, tgt: Word, alpha: real, n: nat, more: nat)
    requires Weight(alpha) && Eased(cur, tgt, alpha, n) == tgt && n <= more
    ensures Eased(cur, tgt, alpha, more) == tgt
  {
    if n < more {
      ArrivedStays(cur, tgt, alpha, n, more - 1);
      EasedOnce(cur, tgt, alpha, more - 1);
    }
  }

  /** Below that weight, a distance of 257 is never closed: not one tick moves. */
  lemma {:induction false} Stalls(cur: Word, tgt: Word, alpha: real, n: nat)
    requires Weight(alpha) && !Moves(alpha) && Abs(tgt - cur) == 257
    ensures Eased(cur, tgt, alpha, n) == cur
  {
    if n > 0 {
      SmallStepIsNone(alpha, tgt - cur);
      Stalls(cur, tgt, alpha, n - 1);
    }
  }

  ghost predicate Arrives(cur: Word, tgt: Word, alpha: real)
    requires Weight(alpha)
  {
    exists n: nat :: Eased(cur, tgt, alpha, n) == tgt
  }

  /** Every transition completes exactly when the weight moves the smallest unsnapped distance. */
  lemma AlwaysArrivesIffMoves(alpha: real)
    requires Weight(alpha)
    ensures (forall cur: Word, tgt: Word :: Arrives(cur, tgt, alpha)) <==> Moves(alpha)
  {
    if Moves(alpha) {
      forall cur: Word, tgt: Word ensures Arrives(cur, tgt, alpha) {
        var n := ReachesTarget(cur, tgt, alpha);
      }
    } else if Arrives(0, 257, alpha) {
      var n: nat :| Eased(0, 257, alpha, n) == 257;
      Stalls(0, 257, alpha, n);
    }
  }

  // The default weight, 1 - exp(-1/2), lies between 0.393 and 0.394.

  /** A distance after one tick of a weight of at least 0.393, rounded up. */
  function Shrunk(bound: nat): nat {
    (607 * bound + 500) / 1000
  }

  /** Bounds on the distance after 0 to 12 ticks, from the largest there is. */
  const BOUNDS: seq<nat> := [65535, 39780, 24146, 14657, 8897, 5400, 3278, 1990, 1208, 733, 445, 270, 164]

  lemma BoundsShrink(i: nat)
    requires i < 12
    ensures Shrunk(BOUNDS[i]) <= BOUNDS[i + 1]
  {
  }

  /** Rounding a step of at least 0.393 of the distance leaves at most 0.607 of it, and a half. */
  lemma LeftOver(d: int, p: real, alpha: real)
    requires d > 0 && alpha >= 0.393 && p == alpha * (d as real)
    ensures 1000 * (d - Round(p)) <= 607 * d + 500
  {
    var x := d as real;
    assert p >= 0.393 * x;
    RoundNear(p);
    assert (d - Round(p)) as real <= 0.607 * x + 0.5;
    assert (1000 * (d - Round(p))) as real <= (607 * d + 500) as real;
  }

  lemma AtMostShrunk(left: int, d: nat, bound: nat)
    requires 1000 * left <= 607 * d + 500 && d <= bound
    ensures left <= Shrunk(bound)
  {
  }

  lemma ScaledNegation(alpha: real, d: int)
    ensures alpha * ((-d) as real) == -(alpha * (d as real))
  {
    assert (-d) as real == -(d as real);
  }

  lemma RoundIsOdd(x: real)
    ensures Round(-x) == -Round(x)
  {
  }

  /** A fall of the component, as the mirror image of a rise. */
  lemma FallLeftOver(d: int, p: real, alpha: real)
    requires d < 0 && alpha >= 0.393 && p == alpha * (d as real)
    ensures 1000 * (-d + Round(p)) <= 607 * -d + 500
  {
    ScaledNegation(alpha, d);
    LeftOver(-d, -p, alpha);
    RoundIsOdd(p);
  }

  /** Beyond the snap distance, easing adds the rounded step. */
  lemma SmoothAddsStep(cur: Word, tgt: Word, alpha: real, d: int, p: real)
    requires Weight(alpha) && d == tgt - cur && Abs(d) > SNAP && p == alpha * (d as real)
    ensures Smooth(cur, tgt, alpha) as int == cur + Round(p)
  {
  }

  lemma SmoothLeaves(cur: Word, tgt: Word, alpha: real)
    requires Weight(alpha) && alpha >= 0.393
    ensures 1000 * Abs(tgt - Smooth(cur, tgt, alpha)) <= 607 * Abs(tgt - cur) + 500
  {
    var d: int := tgt - cur;
    if Abs(d) > SNAP {
      var p := alpha * (d as real);
      SmoothAddsStep(cur, tgt, alpha, d, p);
      if d > 0 {
        LeftOver(d, p, alpha);
      } else {
        FallLeftOver(d, p, alpha);
      }
    }
  }

  lemma ShrinksAtLeast(cur: Word, tgt: Word, alpha: real, bound: nat)
    requires Weight(alpha) && alpha >= 0.393 && Abs(tgt - cur) <= bound
    ensures Abs(tgt - Smooth(cur, tgt, alpha)) <= Shrunk(bound)
  {
    SmoothLeaves(cur, tgt, alpha);
    AtMostShrunk(Abs(tgt - Smooth(cur, tgt, alpha)), Abs(tgt - cur), bound);
  }

  lemma {:induction false} Stays(tgt: Word, alpha: real, n: nat)
    requires Weight(alpha)
    ensures Eased(tgt, tgt, alpha, n) == tgt
  {
    if n > 0 {
      Stays(tgt, alpha, n - 1);
    }
  }

  lemma {:induction false} ArrivesFrom(cur: Word, tgt: Word, alpha: real, done: nat, ticks: nat)
    requires Weight(alpha) && alpha >= 0.393 && done <= 12
    requires Abs(tgt - cur) <= BOUNDS[done] && ticks >= 13 - done
    ensures Eased(cur, tgt, alpha, ticks) == tgt
    decreases 12 - done
  {
    var next := Smooth(cur, tgt, alpha);
    if done == 12 {
      Stays(tgt, alpha, ticks - 1);
    } else {
      ShrinksAtLeast(cur, tgt, alpha, BOUNDS[done]);
      BoundsShrink(done);
      ArrivesFrom(next, tgt, alpha, done + 1, ticks - 1);
    }
  }

  /** At the default weight every 16-bit transition is complete after 13 ticks of 20 ms, and stays so. */
  lemma DefaultArrivesInThirteen(cur: Word, tgt: Word, alpha: real, ticks: nat)
    requires 0.393 <= alpha <= 0.394 && ticks >= 13
    ensures Eased(cur, tgt, alpha, ticks) == tgt
  {
    ArrivesFrom(cur, tgt, alpha, 0, ticks);
  }
}
