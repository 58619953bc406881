/** The ranker's area-under-ROC number: one linear scan over the rows in descending score order,
    against the quadratic count of (positive, negative) pairs it stands for. */
module Auc {
  import opened Common

  predicate Placed(order: seq<nat>, i: nat) {
    exists p :: 0 <= p < |order| && order[p] == i
  }

  /** What an unstable argsort of the negated scores may return. */
  ghost predicate ValidOrder(scores: seq<real>, order: seq<nat>) {
    && |order| == |scores|
    && (forall p :: 0 <= p < |order| ==> order[p] < |scores|)
    && (forall p, q :: 0 <= p < q < |order| ==> order[p] != order[q])
    && (forall i: nat :: i < |scores| ==> Placed(order, i))
    && (forall p, q :: 0 <= p < q < |order| ==> scores[order[p]] >= scores[order[q]])
  }

  predicate ZeroOne(y: seq<int>) {
    forall i :: 0 <= i < |y| ==> y[i] == 0 || y[i] == 1
  }

  function Reordered(labels: seq<int>, order: seq<nat>): seq<int>
    requires forall p :: 0 <= p < |order| ==> order[p] < |labels|
  {
    seq(|order|, p requires 0 <= p < |order| => labels[order[p]])
  }

  function Id(x: int): int {
    x
  }

  /** Running totals. */
  function CumSum(xs: seq<int>): (r: seq<int>)
    ensures |r| == |xs|
    ensures forall i :: 0 <= i < |xs| ==> r[i] == Sum(xs[..i + 1], Id)
  {
    if xs == [] then []
    else
      var n := |xs| - 1;
      var front := CumSum(xs[..n]);
      assert forall i :: 0 <= i < n ==> front[i] == Sum(xs[..n][..i + 1], Id) && xs[..n][..i + 1] == xs[..i + 1];
      assert xs[..n + 1] == xs;
      front + [Sum(xs, Id)]
  }

  /** The entries of `xs` at the rows labelled zero. */
  function AtZeros(xs: seq<int>, y: seq<int>): seq<int>
    requires |xs| == |y|
  {
    if y == [] then []
    else
      var n := |y| - 1;
      AtZeros(xs[..n], y[..n]) + (if y[n] == 0 then [xs[n]] else [])
  }

  function IsOne(y: seq<int>): seq<int> {
    seq(|y|, i requires 0 <= i < |y| => if y[i] == 1 then 1 else 0)
  }

  function Numerator(y: seq<int>): int {
    Sum(AtZeros(CumSum(IsOne(y)), y), Id)
  }

  /** `num` of the pos * neg pairs; a half when there are none. */
  function Share(num: int, pos: int, neg: int): real {
    if pos == 0 || neg == 0 then 0.5 else num as real / (pos as real * neg as real)
  }

  /** The area, from the labels in descending score order. */
  function Area(y: seq<int>): real {
    var pos := Sum(y, Id);
    var neg := |y| - pos;
    Share(Numerator(y), pos, neg)
  }

  function AreaUnderRoc(labels: seq<int>, order: seq<nat>): real
    requires forall p :: 0 <= p < |order| ==> order[p] < |labels|
  {
    Area(Reordered(labels, order))
  }

  // ---- The pairs it counts ------------------------------------------------------------

  type Pair = (nat, nat)

  /** Positions of a positive placed before a negative. */
  ghost function Before(y: seq<int>): set<Pair> {
    set p: nat, q: nat | p < q < |y| && y[p] == 1 && y[q] == 0 :: (p, q)
  }

  /** (positive, negative) rows with the positive scored strictly higher. */
  ghost function Strict(labels: seq<int>, scores: seq<real>): set<Pair>
    requires |labels| == |scores|
  {
    set i: nat, j: nat | i < |labels| && j < |labels| && labels[i] == 1 && labels[j] == 0 && scores[i] > scores[j] :: (i, j)
  }

  /** ... or at least as high. */
  ghost function Weak(labels: seq<int>, scores: seq<real>): set<Pair>
    requires |labels| == |scores|
  {
    set i: nat, j: nat | i < |labels| && j < |labels| && labels[i] == 1 && labels[j] == 0 && scores[i] >= scores[j] :: (i, j)
  }

  ghost predicate NoTies(labels: seq<int>, scores: seq<real>)
    requires |labels| == |scores|
  {
    forall i, j :: 0 <= i < |labels| && 0 <= j < |labels| && labels[i] == 1 && labels[j] == 0 ==> scores[i] != scores[j]
  }

  // ---- The scan counts the pairs ------------------------------------------------------

  function Ones(y: seq<int>): nat {
    if y == [] then 0 else Ones(y[..|y| - 1]) + Ind(y[|y| - 1] == 1)
  }

  lemma {:induction false} OnesIsSum(y: seq<int>)
    ensures Sum(IsOne(y), Id) == Ones(y) <= |y|
    ensures ZeroOne(y) ==> Sum(y, Id) == Ones(y)
  {
    if y != [] {
      var n := |y| - 1;
      OnesIsSum(y[..n]);
      assert IsOne(y)[..n] == IsOne(y[..n]);
    }
  }

  /** One more row adds the positives so far, if it is a negative. */
  lemma NumeratorStep(y: seq<int>)
    requires y != []
    ensures var front := y[..|y| - 1];
            Numerator(y) == Numerator(front) + (if y[|y| - 1] == 0 then Ones(front) else 0)
  {
    var n := |y| - 1;
    var front := y[..n];
    OnesIsSum(y);
    OnesIsSum(front);
    assert IsOne(y)[..n] == IsOne(front);
    assert CumSum(IsOne(y))[..n] == CumSum(IsOne(front));
    var rest := AtZeros(CumSum(IsOne(front)), front);
    if y[n] == 0 {
      assert IsOne(y)[..n + 1] == IsOne(y);
      SumSingle(rest, CumSum(IsOne(y))[n], Id);
    } else {
      assert rest + [] == rest;
    }
  }

  ghost function PositivesWith(y: seq<int>, q: nat): set<Pair> {
    set p: nat | p < |y| && y[p] == 1 :: (p, q)
  }

  lemma {:induction false} PositivesWithCount(y: seq<int>, q: nat)
    ensures |PositivesWith(y, q)| == Ones(y)
  {
    if y == [] {
      assert PositivesWith(y, q) == {};
    } else {
      var n := |y| - 1;
      PositivesWithCount(y[..n], q);
      if y[n] == 1 {
        assert PositivesWith(y, q) == PositivesWith(y[..n], q) + {(n, q)};
        assert (n, q) !in PositivesWith(y[..n], q);
      } else {
        assert PositivesWith(y, q) == PositivesWith(y[..n], q);
      }
    }
  }

  lemma EmptyNumerator()
    ensures Numerator([]) == 0
  {
    assert AtZeros(CumSum(IsOne([])), []) == [];
  }

  /** A negative at the end is preceded by every positive. */
  lemma NewNegative(y: seq<int>)
    requires y != [] && y[|y| - 1] == 0
    ensures var front, n := y[..|y| - 1], |y| - 1;
            Before(y) == Before(front) + PositivesWith(front, n) && Before(front) !! PositivesWith(front, n)
  {
    var front, n := y[..|y| - 1], |y| - 1;
    forall e | e in Before(y) ensures e in Before(front) + PositivesWith(front, n) {
      if e.1 < n {
        assert front[e.0] == 1 && front[e.1] == 0;
      }
    }
  }

  lemma {:induction false} NumeratorCountsPairs(y: seq<int>)
    ensures Numerator(y) == |Before(y)|
  {
    hide Numerator, Ones, PositivesWith;
    if y == [] {
      EmptyNumerator();
      assert Before(y) == {};
    } else {
      var n := |y| - 1;
      NumeratorStep(y);
      NumeratorCountsPairs(y[..n]);
      if y[n] == 0 {
        PositivesWithCount(y[..n], n);
        NewNegative(y);
      } else {
        assert Before(y) == Before(y[..n]);
      }
    }
  }

  /** At most one pair per positive and negative. */
  predicate InGrid(num: int, pos: int, neg: int) {
    pos >= 0 && neg >= 0 && 0 <= num <= pos * neg
  }

  lemma GridStep(num: int, k: nat, n: nat, positive: bool)
    requires k <= n && 0 <= num <= k * (n - k)
    ensures positive ==> num <= (k + 1) * (n - k)
    ensures !positive ==> num + k <= k * (n + 1 - k)
  {
    assert (k + 1) * (n - k) == k * (n - k) + (n - k);
    assert k * (n + 1 - k) == k * (n - k) + k;
  }

  lemma {:induction false} NumeratorBound(y: seq<int>)
    requires ZeroOne(y)
    ensures InGrid(Numerator(y), Ones(y), |y| - Ones(y))
  {
    hide Numerator;
    if y == [] {
      EmptyNumerator();
    } else {
      var n := |y| - 1;
      NumeratorBound(y[..n]);
      NumeratorStep(y);
      GridStep(Numerator(y[..n]), Ones(y[..n]), n, y[n] == 1);
    }
  }

  // ---- From positions to rows ---------------------------------------------------------

  ghost predicate Within(pairs: set<Pair>, n: nat) {
    forall e :: e in pairs ==> e.0 < n && e.1 < n
  }

  ghost function RowsOf(pairs: set<Pair>, order: seq<nat>): set<Pair>
    requires Within(pairs, |order|)
  {
    set e | e in pairs :: (order[e.0], order[e.1])
  }

  lemma {:induction false} RowsOfCount(pairs: set<Pair>, order: seq<nat>)
    requires Within(pairs, |order|)
    requires forall p, q :: 0 <= p < q < |order| ==> order[p] != order[q]
    ensures |RowsOf(pairs, order)| == |pairs|
    decreases |pairs|
  {
    if pairs == {} {
      assert RowsOf(pairs, order) == {};
    } else {
      var e :| e in pairs;
      var rest := pairs - {e};
      RowsOfCount(rest, order);
      OneMoreRow(rest, e, order);
      assert pairs == rest + {e};
    }
  }

  lemma OneMoreRow(rest: set<Pair>, e: Pair, order: seq<nat>)
    requires Within(rest, |order|) && e.0 < |order| && e.1 < |order| && e !in rest
    requires forall p, q :: 0 <= p < q < |order| ==> order[p] != order[q]
    ensures |RowsOf(rest + {e}, order)| == |RowsOf(rest, order)| + 1
  {
    var image := (order[e.0], order[e.1]);
    assert RowsOf(rest + {e}, order) == RowsOf(rest, order) + {image};
    forall d | d in rest ensures (order[d.0], order[d.1]) != image {
      assert d.0 != e.0 || d.1 != e.1;
    }
  }

  lemma {:induction false} SubsetCount(a: set<Pair>, b: set<Pair>)
    requires a <= b
    ensures |a| <= |b|
    ensures |a| == |b| ==> a == b
  {
    assert b == a + (b - a);
  }

  lemma PlacedPairsAreBetween(labels: seq<int>, scores: seq<real>, order: seq<nat>)
    requires |labels| == |scores| && ValidOrder(scores, order)
    ensures var rows := RowsOf(Before(Reordered(labels, order)), order);
            Strict(labels, scores) <= rows <= Weak(labels, scores)
  {
    var y := Reordered(labels, order);
    var rows := RowsOf(Before(y), order);
    forall e | e in Strict(labels, scores) ensures e in rows {
      assert Placed(order, e.0) && Placed(order, e.1);
      var p :| 0 <= p < |order| && order[p] == e.0;
      var q :| 0 <= q < |order| && order[q] == e.1;
      assert !(q <= p);
      assert (p, q) in Before(y);
    }
  }

  /** The scan's numerator lies between the strict and the weak pair count, whatever order the
      sort picked among equal scores, and is both of them when no positive ties a negative. */
  lemma NumeratorBetweenPairCounts(labels: seq<int>, scores: seq<real>, order: seq<nat>)
    requires |labels| == |scores| && ValidOrder(scores, order)
    ensures var num := Numerator(Reordered(labels, order));
            && |Strict(labels, scores)| <= num <= |Weak(labels, scores)|
            && (NoTies(labels, scores) ==> |Strict(labels, scores)| == num == |Weak(labels, scores)|)
  {
    var y := Reordered(labels, order);
    NumeratorCountsPairs(y);
    RowsOfCount(Before(y), order);
    PlacedPairsAreBetween(labels, scores, order);
    SubsetCount(Strict(labels, scores), RowsOf(Before(y), order));
    SubsetCount(RowsOf(Before(y), order), Weak(labels, scores));
    if NoTies(labels, scores) {
      assert Strict(labels, scores) == Weak(labels, scores);
    }
  }

  /** Half for an empty class, and otherwise the fraction of all pairs. */
  lemma ShareMeans(num: int, pos: int, neg: int)
    requires pos >= 0 && neg >= 0
    ensures pos == 0 || neg == 0 ==> Share(num, pos, neg) == 0.5
    ensures pos > 0 && neg > 0 ==> Share(num, pos, neg) * (pos as real * neg as real) == num as real
  {
    if pos > 0 && neg > 0 {
      var grid := pos as real * neg as real;
      ProductPositive(pos as real, neg as real);
      assert (num as real / grid) * grid == num as real;
    }
  }

  lemma ShareMonotone(a: int, b: int, pos: int, neg: int)
    requires pos >= 0 && neg >= 0 && a <= b
    ensures Share(a, pos, neg) <= Share(b, pos, neg)
  {
    if pos != 0 && neg != 0 {
      ProductPositive(pos as real, neg as real);
      var grid := pos as real * neg as real;
      assert a as real / grid <= b as real / grid;
    }
  }

  lemma ProductPositive(a: real, b: real)
    requires a > 0.0 && b > 0.0
    ensures a * b > 0.0
  {
  }

  lemma SelfRatio(x: real)
    requires x > 0.0
    ensures 0.0 / x == 0.0 && x / x == 1.0
  {
  }

  lemma EndShares(pos: int, neg: int)
    requires pos > 0 && neg > 0
    ensures Share(0, pos, neg) == 0.0 && Share(pos * neg, pos, neg) == 1.0
  {
    var grid := pos as real * neg as real;
    ProductPositive(pos as real, neg as real);
    SelfRatio(grid);
    assert (pos * neg) as real == grid;
  }

  lemma ShareInUnitInterval(num: int, pos: int, neg: int)
    requires InGrid(num, pos, neg)
    ensures 0.0 <= Share(num, pos, neg) <= 1.0
  {
    if pos != 0 && neg != 0 {
      ShareMonotone(0, num, pos, neg);
      ShareMonotone(num, pos * neg, pos, neg);
      EndShares(pos, neg);
      hide Share;
    }
  }

  /** Sorting the rows does not change how many are positive. */
  lemma ReorderedOnes(labels: seq<int>, scores: seq<real>, order: seq<nat>)
    requires |labels| == |scores| && ValidOrder(scores, order)
    ensures Ones(Reordered(labels, order)) == Ones(labels)
  {
    var y := Reordered(labels, order);
    if order != [] {
      PositivesWithCount(y, 0);
      PositivesWithCount(labels, order[0]);
      RowsOfCount(PositivesWith(y, 0), order);
      forall e | e in PositivesWith(labels, order[0]) ensures e in RowsOf(PositivesWith(y, 0), order) {
        assert Placed(order, e.0);
        var p: nat :| p < |order| && order[p] == e.0;
        assert (p, 0) in PositivesWith(y, 0);
      }
      assert RowsOf(PositivesWith(y, 0), order) == PositivesWith(labels, order[0]);
    } else {
      assert |y| == 0 && |labels| == 0;
    }
  }

  lemma ReorderedZeroOne(labels: seq<int>, order: seq<nat>)
    requires ZeroOne(labels) && forall p :: 0 <= p < |order| ==> order[p] < |labels|
    ensures ZeroOne(Reordered(labels, order))
  {
  }

  lemma AreaAsShare(y: seq<int>)
    requires ZeroOne(y)
    ensures var num, pos, neg := Numerator(y), Ones(y), |y| - Ones(y);
            neg >= 0 && InGrid(num, pos, neg) && Area(y) == Share(num, pos, neg)
  {
    hide Share, InGrid, Numerator, Ones, Sum, IsOne;
    NumeratorBound(y);
    OnesIsSum(y);
  }

  /** The number is in [0, 1] and lies between the shares of strictly and weakly better scored
      pairs; without ties it is that share, the chance that a positive outscores a negative. */
  lemma AreaIsPairShare(labels: seq<int>, scores: seq<real>, order: seq<nat>)
    requires |labels| == |scores| && ZeroOne(labels) && ValidOrder(scores, order)
    ensures var pos := Ones(labels);
            var neg := |labels| - pos;
            var area := AreaUnderRoc(labels, order);
            && 0.0 <= area <= 1.0
            && Share(|Strict(labels, scores)|, pos, neg) <= area <= Share(|Weak(labels, scores)|, pos, neg)
            && (NoTies(labels, scores) ==> area == Share(|Strict(labels, scores)|, pos, neg))
            && (pos == 0 || neg == 0 ==> area == 0.5)
            && (pos > 0 && neg > 0 ==> area * (pos as real * neg as real) == Numerator(Reordered(labels, order)) as real)
  {
    hide Share, InGrid, Numerator, Ones, Area, Strict, Weak, NoTies, ZeroOne, Placed;
    ReorderedZeroOne(labels, order);
    ReorderedOnes(labels, scores, order);
    AreaAsShare(Reordered(labels, order));
    NumeratorBetweenPairCounts(labels, scores, order);
    var num, pos := Numerator(Reordered(labels, order)), Ones(labels);
    var neg := |labels| - pos;
    ShareInUnitInterval(num, pos, neg);
    ShareMonotone(|Strict(labels, scores)|, num, pos, neg);
    ShareMonotone(num, |Weak(labels, scores)|, pos, neg);
    ShareMeans(num, pos, neg);
  }

  // ---- Ties make it ambiguous ---------------------------------------------------------

  function Swap<T>(s: seq<T>, p: nat): seq<T>
    requires p + 1 < |s|
  {
    s[p := s[p + 1]][p + 1 := s[p]]
  }

  lemma {:induction false} SwapKeepsOnes(y: seq<int>, p: nat)
    requires p + 1 < |y|
    ensures Ones(Swap(y, p)) == Ones(y)
  {
    var n := |y| - 1;
    if p + 1 == n {
      var z := Swap(y, p);
      assert z[..n][..n - 1] == y[..n][..n - 1];
      assert Ones(z[..n]) == Ones(z[..n][..n - 1]) + Ind(y[n] == 1);
      assert Ones(y[..n]) == Ones(y[..n][..n - 1]) + Ind(y[n - 1] == 1);
    } else {
      assert Swap(y, p)[..n] == Swap(y[..n], p);
      SwapKeepsOnes(y[..n], p);
    }
  }

  lemma SwapAtEnd(y: seq<int>)
    requires |y| >= 2 && y[|y| - 2] == 0 && y[|y| - 1] == 1
    ensures Numerator(Swap(y, |y| - 2)) == Numerator(y) + 1
  {
    var n := |y| - 1;
    var z := Swap(y, n - 1);
    NumeratorStep(y);
    NumeratorStep(z);
    NumeratorStep(y[..n]);
    NumeratorStep(z[..n]);
    hide Numerator;
    assert z[..n][..n - 1] == y[..n][..n - 1];
    assert Ones(z[..n]) == Ones(z[..n][..n - 1]) + 1;
  }

  /** Moving a positive in front of its neighbouring negative adds exactly one pair. */
  lemma {:induction false} SwapAddsOne(y: seq<int>, p: nat)
    requires p + 1 < |y| && y[p] == 0 && y[p + 1] == 1
    ensures Numerator(Swap(y, p)) == Numerator(y) + 1
  {
    hide Numerator, Ones;
    var n := |y| - 1;
    var z := Swap(y, p);
    if p + 1 == n {
      SwapAtEnd(y);
    } else {
      NumeratorStep(y);
      NumeratorStep(z);
      assert z[..n] == Swap(y[..n], p);
      SwapAddsOne(y[..n], p);
      SwapKeepsOnes(y[..n], p);
    }
  }

  /** Between two different labels there are two neighbouring different labels. */
  lemma {:induction false} DifferentNeighbours(y: seq<int>, a: nat, b: nat) returns (p: nat)
    requires a < b < |y| && y[a] != y[b]
    ensures a <= p < b && y[p] != y[p + 1]
    decreases b - a
  {
    if y[a] != y[a + 1] {
      p := a;
    } else {
      p := DifferentNeighbours(y, a + 1, b);
    }
  }

  lemma SwapStaysValid(scores: seq<real>, order: seq<nat>, p: nat)
    requires ValidOrder(scores, order) && p + 1 < |order| && scores[order[p]] == scores[order[p + 1]]
    ensures ValidOrder(scores, Swap(order, p))
  {
    var other := Swap(order, p);
    forall i: nat | i < |scores| ensures Placed(other, i) {
      assert Placed(order, i);
      var a :| 0 <= a < |order| && order[a] == i;
      var b := if a == p then p + 1 else if a == p + 1 then p else a;
      assert other[b] == i;
    }
  }

  /** Neighbours with different labels and equal scores lie between the two rows of a tie. */
  lemma TiedNeighbours(labels: seq<int>, scores: seq<real>, order: seq<nat>) returns (p: nat)
    requires |labels| == |scores| && ValidOrder(scores, order) && !NoTies(labels, scores)
    ensures p + 1 < |order| && scores[order[p]] == scores[order[p + 1]]
    ensures labels[order[p]] != labels[order[p + 1]]
  {
    var i, j :| 0 <= i < |labels| && 0 <= j < |labels| && labels[i] == 1 && labels[j] == 0 && scores[i] == scores[j];
    assert Placed(order, i) && Placed(order, j);
    var a :| 0 <= a < |order| && order[a] == i;
    var b :| 0 <= b < |order| && order[b] == j;
    var first, last := Min(a, b), Max(a, b);
    p := DifferentNeighbours(Reordered(labels, order), first, last);
    hide NoTies, Reordered;
    TiedBetween(scores, order, first, p, last);
  }

  lemma TiedBetween(scores: seq<real>, order: seq<nat>, first: nat, p: nat, last: nat)
    requires ValidOrder(scores, order) && first <= p < last < |order| && scores[order[first]] == scores[order[last]]
    ensures scores[order[p]] == scores[order[p + 1]]
  {
    assert scores[order[first]] >= scores[order[p]] >= scores[order[p + 1]] >= scores[order[last]];
  }

  lemma SwapReorders(labels: seq<int>, order: seq<nat>, p: nat)
    requires p + 1 < |order| && forall q :: 0 <= q < |order| ==> order[q] < |labels|
    ensures Reordered(labels, Swap(order, p)) == Swap(Reordered(labels, order), p)
  {
  }

  lemma TieGivesTwoAnswers(labels: seq<int>, scores: seq<real>, order: seq<nat>) returns (other: seq<nat>)
    requires |labels| == |scores| && ZeroOne(labels) && ValidOrder(scores, order) && !NoTies(labels, scores)
    ensures ValidOrder(scores, other)
    ensures Numerator(Reordered(labels, other)) != Numerator(Reordered(labels, order))
  {
    hide Numerator, NoTies;
    var p := TiedNeighbours(labels, scores, order);
    other := Swap(order, p);
    SwapStaysValid(scores, order, p);
    SwapReorders(labels, order, p);
    var y := Reordered(labels, order);
    var z := Swap(y, p);
    if y[p] == 0 {
      SwapAddsOne(y, p);
    } else {
      SwapAddsOne(z, p);
      assert Swap(z, p) == y;
    }
  }

  lemma {:induction false} OnesBounds(y: seq<int>, i: nat)
    requires i < |y|
    ensures y[i] == 1 ==> Ones(y) >= 1
    ensures y[i] != 1 ==> Ones(y) < |y|
  {
    OnesIsSum(y);
    var n := |y| - 1;
    if i < n {
      OnesBounds(y[..n], i);
      OnesIsSum(y[..n]);
    } else {
      OnesIsSum(y[..n]);
    }
  }

  lemma ShareStrict(a: int, b: int, pos: int, neg: int)
    requires pos > 0 && neg > 0 && a < b
    ensures Share(a, pos, neg) < Share(b, pos, neg)
  {
    ProductPositive(pos as real, neg as real);
    var grid := pos as real * neg as real;
    assert (b as real - a as real) / grid > 0.0;
  }

  /** The returned number in terms of the rows as stored. */
  lemma AreaOfRows(labels: seq<int>, scores: seq<real>, order: seq<nat>)
    requires |labels| == |scores| && ZeroOne(labels) && ValidOrder(scores, order)
    ensures AreaUnderRoc(labels, order)
            == Share(Numerator(Reordered(labels, order)), Ones(labels), |labels| - Ones(labels))
  {
    hide Share, InGrid, Numerator, Ones, Area, ZeroOne, Placed;
    ReorderedZeroOne(labels, order);
    ReorderedOnes(labels, scores, order);
    AreaAsShare(Reordered(labels, order));
  }

  /** With a tie both classes have a row, so another numerator is another number. */
  lemma TieGivesTwoAreas(labels: seq<int>, scores: seq<real>, order: seq<nat>) returns (other: seq<nat>)
    requires |labels| == |scores| && ZeroOne(labels) && ValidOrder(scores, order) && !NoTies(labels, scores)
    ensures ValidOrder(scores, other) && AreaUnderRoc(labels, other) != AreaUnderRoc(labels, order)
  {
    var i: nat, j: nat :| i < |labels| && j < |labels| && labels[i] == 1 && labels[j] == 0 && scores[i] == scores[j];
    OnesBounds(labels, i);
    OnesBounds(labels, j);
    hide Share, Numerator, Ones, AreaUnderRoc, ZeroOne, Placed, NoTies;
    other := TieGivesTwoAnswers(labels, scores, order);
    AreaOfRows(labels, scores, order);
    AreaOfRows(labels, scores, other);
    var a, b := Numerator(Reordered(labels, order)), Numerator(Reordered(labels, other));
    ShareStrict(if a < b then a else b, if a < b then b else a, Ones(labels), |labels| - Ones(labels));
  }

  /** The number is determined by labels and scores exactly when no positive ties a negative;
      with a tie it depends on the order an unstable sort happened to choose. */
  lemma DeterminedIffNoTies(labels: seq<int>, scores: seq<real>, order: seq<nat>)
    requires |labels| == |scores| && ZeroOne(labels) && ValidOrder(scores, order)
    ensures NoTies(labels, scores)
            <==> forall other :: ValidOrder(scores, other) ==> AreaUnderRoc(labels, other) == AreaUnderRoc(labels, order)
  {
    if NoTies(labels, scores) {
      forall other | ValidOrder(scores, other) ensures AreaUnderRoc(labels, other) == AreaUnderRoc(labels, order) {
        hide Share, Numerator, Ones, AreaUnderRoc, ZeroOne, Placed;
        NumeratorBetweenPairCounts(labels, scores, other);
        NumeratorBetweenPairCounts(labels, scores, order);
        AreaOfRows(labels, scores, other);
        AreaOfRows(labels, scores, order);
      }
    } else {
      var other := TieGivesTwoAreas(labels, scores, order);
    }
  }
}
