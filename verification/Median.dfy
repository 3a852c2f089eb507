/**
 * The gated median spike filter (entertainment/streamer.go: medianComponent,
 * gatedMedian, SetMedianFilter).
 */
module Median {
  import opened Common
  import opened HueStream

  /** The three colour components of a channel. */
  datatype Component = A | B | C

  function Sel(c: Channel, k: Component): Word {
    match k case A => c.a case B => c.b case C => c.c
  }

  // ------------------------------------------------------------- the median

  datatype List = Nil | Cons(head: int, tail: List)

  function Length(l: List): nat {
    if l.Nil? then 0 else 1 + Length(l.tail)
  }

  function Insert(x: int, l: List): (r: List)
    ensures Length(r) == Length(l) + 1
  {
    if l.Nil? || x <= l.head then Cons(x, l) else Cons(l.head, Insert(x, l.tail))
  }

  function Sort(l: List): (r: List)
    ensures Length(r) == Length(l)
  {
    if l.Nil? then Nil else Insert(l.head, Sort(l.tail))
  }

  function Nth(l: List, i: nat): int
    requires i < Length(l)
  {
    if i == 0 then l.head else Nth(l.tail, i - 1)
  }

  /** medianComponent: the upper of the two middle samples when their number is even. */
  function MedianOf(l: List): int {
    if l.Nil? then 0 else Nth(Sort(l), Length(l) / 2)
  }

  function Less(l: List, x: int): nat {
    if l.Nil? then 0 else (if l.head < x then 1 else 0) + Less(l.tail, x)
  }

  function More(l: List, x: int): nat {
    if l.Nil? then 0 else (if l.head > x then 1 else 0) + More(l.tail, x)
  }

  /** How many samples lie outside the band. */
  function Outside(l: List, lo: int, hi: int): nat {
    if l.Nil? then 0 else (if l.head < lo || l.head > hi then 1 else 0) + Outside(l.tail, lo, hi)
  }

  predicate Ascending(l: List) {
    l.Cons? ==> Ascending(l.tail) && (l.tail.Cons? ==> l.head <= l.tail.head)
  }

  lemma {:induction false} InsertAscends(x: int, l: List)
    requires Ascending(l)
    ensures Ascending(Insert(x, l))
  {
    if l.Cons? && x > l.head {
      InsertAscends(x, l.tail);
    }
  }

  lemma {:induction false} InsertCounts(x: int, l: List, lo: int, hi: int)
    ensures Outside(Insert(x, l), lo, hi) == Outside(Cons(x, l), lo, hi)
  {
    if l.Cons? && x > l.head {
      InsertCounts(x, l.tail, lo, hi);
    }
  }

  /** Sorting orders the samples and keeps how many lie outside any band. */
  lemma {:induction false} SortSorts(l: List, lo: int, hi: int)
    ensures Ascending(Sort(l))
    ensures Outside(Sort(l), lo, hi) == Outside(l, lo, hi)
  {
    if l.Cons? {
      SortSorts(l.tail, lo, hi);
      InsertAscends(l.head, Sort(l.tail));
      InsertCounts(l.head, Sort(l.tail), lo, hi);
    }
  }

  lemma {:induction false} AllAbove(l: List, lo: int, hi: int)
    requires Ascending(l) && l.Cons? && l.head > hi
    ensures Outside(l, lo, hi) == Length(l)
  {
    if l.tail.Cons? {
      AllAbove(l.tail, lo, hi);
    }
  }

  lemma {:induction false} HeadIsLeast(l: List, i: nat)
    requires Ascending(l) && i < Length(l)
    ensures l.head <= Nth(l, i)
  {
    if i > 0 {
      HeadIsLeast(l.tail, i - 1);
    }
  }

  /** An element of a sorted list outside the band drags one side of the list with it. */
  lemma {:induction false} StrayElement(l: List, i: nat, lo: int, hi: int)
    requires Ascending(l) && i < Length(l)
    ensures Nth(l, i) > hi ==> Outside(l, lo, hi) >= Length(l) - i
    ensures Nth(l, i) < lo ==> Outside(l, lo, hi) >= i + 1
  {
    if i == 0 {
      if l.head > hi {
        AllAbove(l, lo, hi);
      }
    } else {
      StrayElement(l.tail, i - 1, lo, hi);
      HeadIsLeast(l, i);
    }
  }

  /** With fewer than half of the samples outside a band, the median lies inside it. */
  lemma MedianInBand(l: List, lo: int, hi: int)
    requires 2 * Outside(l, lo, hi) < Length(l)
    ensures lo <= MedianOf(l) <= hi
  {
    SortSorts(l, lo, hi);
    StrayElement(Sort(l), Length(l) / 2, lo, hi);
  }

  lemma {:induction false} InsertSplits(x: int, l: List, y: int)
    ensures Less(Insert(x, l), y) == Less(Cons(x, l), y) && More(Insert(x, l), y) == More(Cons(x, l), y)
  {
    if l.Cons? && x > l.head {
      InsertSplits(x, l.tail, y);
    }
  }

  lemma {:induction false} SortSplits(l: List, y: int)
    ensures Less(Sort(l), y) == Less(l, y) && More(Sort(l), y) == More(l, y)
  {
    if l.Cons? {
      SortSplits(l.tail, y);
      InsertSplits(l.head, Sort(l.tail), y);
    }
  }

  lemma {:induction false} NoneLess(l: List, x: int)
    requires Ascending(l) && (l.Cons? ==> x <= l.head)
    ensures Less(l, x) == 0
  {
    if l.Cons? {
      NoneLess(l.tail, x);
    }
  }

  lemma {:induction false} AtMostAll(l: List, x: int)
    ensures More(l, x) <= Length(l)
  {
    if l.Cons? {
      AtMostAll(l.tail, x);
    }
  }

  /** The element at `i` of a sorted list has at most `i` below it and at most the rest above. */
  lemma {:induction false} NthSplits(l: List, i: nat)
    requires Ascending(l) && i < Length(l)
    ensures Less(l, Nth(l, i)) <= i && More(l, Nth(l, i)) <= Length(l) - 1 - i
  {
    if i == 0 {
      NoneLess(l, l.head);
      AtMostAll(l.tail, l.head);
    } else {
      NthSplits(l.tail, i - 1);
      HeadIsLeast(l, i);
    }
  }

  /** What makes it the median: at most half of the samples are below it, and fewer than half above. */
  lemma {:induction false} MedianSplits(l: List)
    requires l.Cons?
    ensures 2 * Less(l, MedianOf(l)) <= Length(l) && 2 * More(l, MedianOf(l)) < Length(l)
  {
    SortSorts(l, 0, 0);
    NthSplits(Sort(l), Length(l) / 2);
    SortSplits(l, MedianOf(l));
  }

  predicate Has(l: List, x: int) {
    l.Cons? && (l.head == x || Has(l.tail, x))
  }

  lemma {:induction false} InsertHas(x: int, l: List, y: int)
    requires Has(Insert(x, l), y)
    ensures y == x || Has(l, y)
  {
    if l.Cons? && x > l.head && y != l.head {
      InsertHas(x, l.tail, y);
    }
  }

  lemma {:induction false} SortHas(l: List, y: int)
    requires Has(Sort(l), y)
    ensures Has(l, y)
  {
    if l.Cons? {
      InsertHas(l.head, Sort(l.tail), y);
      if y != l.head {
        SortHas(l.tail, y);
      }
    }
  }

  lemma {:induction false} NthHas(l: List, i: nat)
    requires i < Length(l)
    ensures Has(l, Nth(l, i))
  {
    if i > 0 {
      NthHas(l.tail, i - 1);
    }
  }

  /** The median is one of the samples. */
  lemma MedianIsSample(l: List)
    requires l.Cons?
    ensures Has(l, MedianOf(l))
  {
    NthHas(Sort(l), Length(l) / 2);
    SortHas(l, MedianOf(l));
  }

  // ---------------------------------------------------------------- the gate

  /** One component of the history from index `i` on. */
  function Samples(h: seq<Channel>, i: nat, k: Component): (l: List)
    requires i <= |h|
    ensures Length(l) == |h| - i
    decreases |h| - i
  {
    if i == |h| then Nil else Cons(Sel(h[i], k), Samples(h, i + 1, k))
  }

  lemma {:induction false} SampleComesFrom(h: seq<Channel>, i: nat, k: Component, x: int)
    requires i <= |h| && Has(Samples(h, i, k), x)
    ensures exists j :: i <= j < |h| && Sel(h[j], k) == x
    decreases |h| - i
  {
    if Sel(h[i], k) != x {
      SampleComesFrom(h, i + 1, k, x);
    }
  }

  /** The median of one component of a history is a value that component had. */
  lemma MedianComesFrom(h: seq<Channel>, k: Component)
    requires h != []
    ensures exists j :: 0 <= j < |h| && Sel(h[j], k) == MedianOf(Samples(h, 0, k))
  {
    MedianIsSample(Samples(h, 0, k));
    SampleComesFrom(h, 0, k, MedianOf(Samples(h, 0, k)));
  }

  /** One component through the gate: the value, and whether the median replaced it. */
  function Pick(h: seq<Channel>, newest: Channel, threshold: Word, k: Component): (int, bool) {
    var cur: int, med: int, t: int := Sel(newest, k), MedianOf(Samples(h, 0, k)), threshold;
    if cur - med > t || cur - med < -t then (med, true) else (cur, false)
  }

  /** The gate passes 16-bit values, and a value it replaces differs from the one it gives. */
  lemma PickChanges(h: seq<Channel>, newest: Channel, threshold: Word, k: Component)
    requires h != []
    ensures 0 <= Pick(h, newest, threshold, k).0 < 0x1_0000
    ensures Pick(h, newest, threshold, k).1 <==> Pick(h, newest, threshold, k).0 != Sel(newest, k)
  {
    MedianComesFrom(h, k);
  }

  /** gatedMedian; `h` already includes the newest sample. */
  function GatedMedian(h: seq<Channel>, newest: Channel, threshold: Word): (r: (Channel, bool))
    requires h != []
    ensures r.0.id == newest.id
    ensures forall k :: Sel(r.0, k) == Pick(h, newest, threshold, k).0
  {
    PickChanges(h, newest, threshold, A);
    PickChanges(h, newest, threshold, B);
    PickChanges(h, newest, threshold, C);
    var (a, da) := Pick(h, newest, threshold, A);
    var (b, db) := Pick(h, newest, threshold, B);
    var (c, dc) := Pick(h, newest, threshold, C);
    (Channel(newest.id, a, b, c), da || db || dc)
  }

  /** The suppressed flag is set exactly when the output differs from the input. */
  lemma FlagTellsChange(h: seq<Channel>, newest: Channel, threshold: Word)
    requires h != []
    ensures var (out, suppressed) := GatedMedian(h, newest, threshold); suppressed <==> out != newest
  {
    PickChanges(h, newest, threshold, A);
    PickChanges(h, newest, threshold, B);
    PickChanges(h, newest, threshold, C);
    var out := GatedMedian(h, newest, threshold).0;
    assert Sel(out, A) == out.a && Sel(out, B) == out.b && Sel(out, C) == out.c;
  }

  /**
   * Robustness at any history length, warm-up included: while fewer than half of the
   * samples stray from a band, the output stays within the threshold of it.
   */
  lemma FilterStaysNearBand(h: seq<Channel>, newest: Channel, threshold: Word, k: Component, lo: int, hi: int)
    requires 2 * Outside(Samples(h, 0, k), lo, hi) < |h|
    ensures lo - threshold <= Sel(GatedMedian(h, newest, threshold).0, k) <= hi + threshold
  {
    MedianInBand(Samples(h, 0, k), lo, hi);
  }

  /** Content that moves by no more than the threshold within a window passes untouched. */
  lemma QuietContentPasses(h: seq<Channel>, newest: Channel, threshold: Word)
    requires h != []
    requires forall j, k :: 0 <= j < |h| ==> Sel(newest, k) - threshold <= Sel(h[j], k) <= Sel(newest, k) + threshold
    ensures GatedMedian(h, newest, threshold) == (newest, false)
  {
    var (out, suppressed) := GatedMedian(h, newest, threshold);
    forall k ensures Sel(out, k) == Sel(newest, k) {
      MedianComesFrom(h, k);
    }
    assert Sel(out, A) == out.a && Sel(out, B) == out.b && Sel(out, C) == out.c;
    assert Sel(newest, A) == newest.a && Sel(newest, B) == newest.b && Sel(newest, C) == newest.c;
    FlagTellsChange(h, newest, threshold);
  }

  lemma {:induction false} FewOutside(h: seq<Channel>, i: nat, tail: nat, k: Component, lo: int, hi: int)
    requires i <= |h| && tail <= |h|
    requires forall j :: tail <= j < |h| ==> lo <= Sel(h[j], k) <= hi
    ensures Outside(Samples(h, i, k), lo, hi) <= if i < tail then tail - i else 0
    decreases |h| - i
  {
    if i < |h| {
      FewOutside(h, i + 1, tail, k, lo, hi);
    }
  }

  /** A newest value held by a strict majority of the window, wherever in it, passes verbatim. */
  lemma MajorityPasses(h: seq<Channel>, newest: Channel, threshold: Word, k: Component)
    requires 2 * Outside(Samples(h, 0, k), Sel(newest, k), Sel(newest, k)) < |h|
    ensures Sel(GatedMedian(h, newest, threshold).0, k) == Sel(newest, k)
  {
    MedianInBand(Samples(h, 0, k), Sel(newest, k), Sel(newest, k));
  }

  /** So does one held by the last `held` samples, if these are the majority. */
  lemma HeldLastPasses(h: seq<Channel>, newest: Channel, threshold: Word, k: Component, held: nat)
    requires held <= |h| < 2 * held
    requires forall j :: |h| - held <= j < |h| ==> Sel(h[j], k) == Sel(newest, k)
    ensures Sel(GatedMedian(h, newest, threshold).0, k) == Sel(newest, k)
  {
    FewOutside(h, 0, |h| - held, k, Sel(newest, k), Sel(newest, k));
    MajorityPasses(h, newest, threshold, k);
  }

  /** SetMedianFilter: an even window is rounded up. */
  function OddWindow(window: int): (w: int)
    ensures w > 1 ==> w % 2 == 1
    ensures window <= w <= window + 1 && (w > 1 <==> window > 1)
  {
    if window > 1 && window % 2 == 0 then window + 1 else window
  }

  /** The window of the filter after raw sample `i`: the last `w` samples, or all so far. */
  function Window(raws: seq<Channel>, i: nat, w: nat): seq<Channel>
    requires i < |raws|
  {
    if i + 1 > w then raws[i + 1 - w..i + 1] else raws[..i + 1]
  }

  /** With a window of 2k+1, a cut that is held shows after at most k frames. */
  lemma HeldCutPasses(raws: seq<Channel>, i: nat, k: nat, threshold: Word, comp: Component)
    requires k <= i < |raws|
    requires forall j :: i - k <= j <= i ==> Sel(raws[j], comp) == Sel(raws[i], comp)
    ensures Sel(GatedMedian(Window(raws, i, 2 * k + 1), raws[i], threshold).0, comp) == Sel(raws[i], comp)
  {
    var h := Window(raws, i, 2 * k + 1);
    forall j | |h| - (k + 1) <= j < |h| ensures Sel(h[j], comp) == Sel(raws[i], comp) {
      assert h[j] == raws[i + 1 - |h| + j];
    }
    HeldLastPasses(h, raws[i], threshold, comp, k + 1);
  }

  /**
   * With two samples there is no majority: the upper one is taken for the median, so a
   * spike in the first frame replaces the second, and exactly when it exceeds it by more
   * than the threshold.
   */
  lemma SecondFrameTakesSpike(first: Channel, second: Channel, threshold: Word, k: Component)
    ensures Sel(GatedMedian([first, second], second, threshold).0, k) ==
            if Sel(first, k) > Sel(second, k) + threshold then Sel(first, k) else Sel(second, k)
  {
    var h := [first, second];
    var x: int, y: int := Sel(first, k), Sel(second, k);
    assert Samples(h, 2, k) == Nil;
    assert Samples(h, 1, k) == Cons(y, Nil);
    assert Samples(h, 0, k) == Cons(x, Cons(y, Nil));
    assert Sort(Cons(y, Nil)) == Insert(y, Nil) == Cons(y, Nil);
    assert Insert(x, Nil) == Cons(x, Nil);
    assert Sort(Cons(x, Cons(y, Nil))) == Insert(x, Cons(y, Nil));
    assert Nth(Cons(x, Cons(y, Nil)), 1) == Nth(Cons(y, Nil), 0) == y;
    assert Nth(Cons(y, Cons(x, Nil)), 1) == Nth(Cons(x, Nil), 0) == x;
    assert Insert(x, Cons(y, Nil)) == if x <= y then Cons(x, Cons(y, Nil)) else Cons(y, Cons(x, Nil));
  }
}
