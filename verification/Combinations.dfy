/** `itertools.combinations` over positions: every strictly increasing choice, in lexicographic
    order, and the bundler's enumeration by size first. */
module Combinations {
  import opened Common

  type Combo = seq<nat>

  ghost predicate Increasing(c: Combo, lo: nat, n: nat) {
    && (forall i :: 0 <= i < |c| ==> lo <= c[i] < n)
    && (forall i, j :: 0 <= i < j < |c| ==> c[i] < c[j])
  }

  /** Lexicographic order on combinations of one size. */
  predicate LexLess(a: Combo, b: Combo) {
    a != [] && b != [] && (a[0] < b[0] || (a[0] == b[0] && LexLess(a[1..], b[1..])))
  }

  function PrependAll(x: nat, cs: seq<Combo>): seq<Combo> {
    if cs == [] then [] else [[x] + cs[0]] + PrependAll(x, cs[1..])
  }

  /** All choices of `k` positions from lo..n-1. */
  function Combos(lo: nat, n: nat, k: nat): seq<Combo>
    decreases n - lo
  {
    if k == 0 then [[]]
    else if lo >= n then []
    else PrependAll(lo, Combos(lo + 1, n, k - 1)) + Combos(lo + 1, n, k)
  }

  lemma {:induction false} PrependAllAt(x: nat, cs: seq<Combo>)
    ensures |PrependAll(x, cs)| == |cs|
    ensures forall i :: 0 <= i < |cs| ==> PrependAll(x, cs)[i] == [x] + cs[i]
  {
    if cs != [] {
      PrependAllAt(x, cs[1..]);
      forall i | 0 <= i < |cs| ensures PrependAll(x, cs)[i] == [x] + cs[i] {
        assert i > 0 ==> cs[1..][i - 1] == cs[i];
      }
    }
  }

  /** Every member is an increasing choice of `k` positions from lo..n-1. */
  ghost predicate AllChoices(cs: seq<Combo>, lo: nat, n: nat, k: nat) {
    forall i :: 0 <= i < |cs| ==> |cs[i]| == k && Increasing(cs[i], lo, n)
  }

  ghost predicate LexOrdered(cs: seq<Combo>) {
    forall i, j :: 0 <= i < j < |cs| ==> LexLess(cs[i], cs[j])
  }

  lemma IncreasingCons(t: Combo, lo: nat, n: nat)
    requires lo < n && Increasing(t, lo + 1, n)
    ensures Increasing([lo] + t, lo, n)
  {
  }

  lemma IncreasingFromLater(c: Combo, lo: nat, n: nat)
    requires Increasing(c, lo + 1, n)
    ensures Increasing(c, lo, n)
    ensures c != [] ==> lo < c[0]
  {
  }

  lemma ChoicesPrepend(tails: seq<Combo>, lo: nat, n: nat, k: nat)
    requires k > 0 && lo < n && AllChoices(tails, lo + 1, n, k - 1)
    ensures AllChoices(PrependAll(lo, tails), lo, n, k)
  {
    PrependAllAt(lo, tails);
    forall i | 0 <= i < |tails| ensures Increasing([lo] + tails[i], lo, n) {
      IncreasingCons(tails[i], lo, n);
    }
  }

  lemma ChoicesLater(rest: seq<Combo>, lo: nat, n: nat, k: nat)
    requires AllChoices(rest, lo + 1, n, k)
    ensures AllChoices(rest, lo, n, k)
  {
    forall i | 0 <= i < |rest| ensures Increasing(rest[i], lo, n) {
      IncreasingFromLater(rest[i], lo, n);
    }
  }

  lemma ChoicesConcat(a: seq<Combo>, b: seq<Combo>, lo: nat, n: nat, k: nat)
    requires AllChoices(a, lo, n, k) && AllChoices(b, lo, n, k)
    ensures AllChoices(a + b, lo, n, k)
  {
  }

  lemma {:induction false} CombosSound(lo: nat, n: nat, k: nat)
    ensures AllChoices(Combos(lo, n, k), lo, n, k)
    decreases n - lo
  {
    if k > 0 && lo < n {
      CombosSound(lo + 1, n, k - 1);
      CombosSound(lo + 1, n, k);
      ChoicesPrepend(Combos(lo + 1, n, k - 1), lo, n, k);
      ChoicesLater(Combos(lo + 1, n, k), lo, n, k);
      ChoicesConcat(PrependAll(lo, Combos(lo + 1, n, k - 1)), Combos(lo + 1, n, k), lo, n, k);
    }
  }

  lemma IncreasingTail(c: Combo, lo: nat, n: nat)
    requires c != [] && Increasing(c, lo, n)
    ensures lo <= c[0] < n
    ensures c[0] == lo ==> Increasing(c[1..], lo + 1, n)
    ensures c[0] != lo ==> Increasing(c, lo + 1, n)
  {
  }

  lemma {:induction false} CombosComplete(lo: nat, n: nat, k: nat, c: Combo)
    requires |c| == k && Increasing(c, lo, n)
    ensures c in Combos(lo, n, k)
    decreases n - lo
  {
    hide Increasing, PrependAll;
    if k > 0 {
      IncreasingTail(c, lo, n);
      var tails := Combos(lo + 1, n, k - 1);
      PrependAllAt(lo, tails);
      if c[0] == lo {
        CombosComplete(lo + 1, n, k - 1, c[1..]);
        var i :| 0 <= i < |tails| && tails[i] == c[1..];
        assert PrependAll(lo, tails)[i] == [lo] + c[1..] == c;
      } else {
        CombosComplete(lo + 1, n, k, c);
      }
    }
  }

  lemma LexCons(x: nat, a: Combo, b: Combo)
    requires LexLess(a, b)
    ensures LexLess([x] + a, [x] + b)
  {
    assert ([x] + a)[1..] == a && ([x] + b)[1..] == b;
  }

  lemma LexByHead(x: nat, a: Combo, b: Combo)
    requires b != [] && x < b[0]
    ensures LexLess([x] + a, b)
  {
  }

  lemma OrderedPrepend(x: nat, tails: seq<Combo>)
    requires LexOrdered(tails)
    ensures LexOrdered(PrependAll(x, tails))
  {
    PrependAllAt(x, tails);
    forall i, j | 0 <= i < j < |tails| ensures LexLess([x] + tails[i], [x] + tails[j]) {
      LexCons(x, tails[i], tails[j]);
    }
  }

  /** What starts at `lo` precedes what starts later. */
  lemma OrderedConcat(lo: nat, n: nat, k: nat, tails: seq<Combo>, rest: seq<Combo>)
    requires k > 0 && LexOrdered(PrependAll(lo, tails)) && LexOrdered(rest)
    requires AllChoices(rest, lo + 1, n, k)
    ensures LexOrdered(PrependAll(lo, tails) + rest)
  {
    PrependAllAt(lo, tails);
    forall i, j | 0 <= i < |tails| && 0 <= j < |rest| ensures LexLess([lo] + tails[i], rest[j]) {
      IncreasingFromLater(rest[j], lo, n);
      LexByHead(lo, tails[i], rest[j]);
    }
  }

  lemma {:induction false} CombosInOrder(lo: nat, n: nat, k: nat)
    ensures LexOrdered(Combos(lo, n, k))
    decreases n - lo
  {
    if k > 0 && lo < n {
      CombosInOrder(lo + 1, n, k - 1);
      CombosInOrder(lo + 1, n, k);
      CombosSound(lo + 1, n, k);
      OrderedPrepend(lo, Combos(lo + 1, n, k - 1));
      OrderedConcat(lo, n, k, Combos(lo + 1, n, k - 1), Combos(lo + 1, n, k));
    }
  }

  /** Sizes 2..k, each in lexicographic order. */
  function UpToSize(n: nat, k: int): seq<Combo>
    decreases k
  {
    if k < 2 then [] else UpToSize(n, k - 1) + Combos(0, n, k)
  }

  /** Smaller combinations first, then lexicographic. */
  predicate EnumLess(a: Combo, b: Combo) {
    |a| < |b| || (|a| == |b| && LexLess(a, b))
  }

  /** The enumeration holds exactly the increasing choices of 2..k positions ... */
  lemma {:induction false} EnumerationExact(n: nat, k: int, c: Combo)
    ensures c in UpToSize(n, k) <==> 2 <= |c| <= k && Increasing(c, 0, n)
    decreases k
  {
    if k >= 2 {
      EnumerationExact(n, k - 1, c);
      if c in Combos(0, n, k) {
        var i :| 0 <= i < |Combos(0, n, k)| && Combos(0, n, k)[i] == c;
        CombosSound(0, n, k);
      }
      if |c| == k && Increasing(c, 0, n) {
        CombosComplete(0, n, k, c);
      }
    }
  }

  lemma {:induction false} LexIrreflexive(a: Combo)
    ensures !LexLess(a, a)
  {
    if a != [] {
      LexIrreflexive(a[1..]);
    }
  }

  /** ... strictly ordered by size and then lexicographically, hence without repetition. */
  lemma {:induction false} EnumerationOrdered(n: nat, k: int, i: nat, j: nat)
    requires i < j < |UpToSize(n, k)|
    ensures EnumLess(UpToSize(n, k)[i], UpToSize(n, k)[j])
    ensures UpToSize(n, k)[i] != UpToSize(n, k)[j]
    decreases k
  {
    LexIrreflexive(UpToSize(n, k)[i]);
    var small, large := UpToSize(n, k - 1), Combos(0, n, k);
    if j < |small| {
      EnumerationOrdered(n, k - 1, i, j);
    } else {
      CombosSound(0, n, k);
      if i < |small| {
        assert small[i] in small;
        EnumerationExact(n, k - 1, small[i]);
      } else {
        CombosInOrder(0, n, k);
      }
    }
  }

  // ---- How many there are ---------------------------------------------------------------

  /** No more positions can be chosen than there are. */
  lemma {:induction false} ChoiceFits(c: Combo, lo: nat, n: nat)
    requires Increasing(c, lo, n) && lo <= n
    ensures |c| <= n - lo
    decreases |c|
  {
    if c != [] {
      assert Increasing(c[1..], c[0] + 1, n);
      ChoiceFits(c[1..], c[0] + 1, n);
    }
  }

  /** The number of choices, by Pascal's rule. */
  function Choose(n: nat, k: nat): nat {
    if k == 0 then 1 else if n == 0 then 0 else Choose(n - 1, k - 1) + Choose(n - 1, k)
  }

  lemma {:induction false} CombosCount(lo: nat, n: nat, k: nat)
    requires lo <= n
    ensures |Combos(lo, n, k)| == Choose(n - lo, k)
    decreases n - lo
  {
    if k > 0 && lo < n {
      CombosCount(lo + 1, n, k - 1);
      CombosCount(lo + 1, n, k);
      PrependAllAt(lo, Combos(lo + 1, n, k - 1));
    }
  }
}
