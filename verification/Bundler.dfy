/** Bounded subset-sum: the capped enumeration of invoice bundles, ranked by closeness. */
module Bundler {
  import opened Common
  import opened Sorting
  import opened Combinations

  const MAX_BUNDLE_SIZE := 5
  const DEFAULT_TOLERANCE := 100
  const DEFAULT_MAX_RESULTS := 5
  const POOL_CAP := 20

  /** An invoice as the bundler sees it: id and amount in cents. */
  type Entry = (string, int)

  datatype Bundle = Bundle(invoiceIds: seq<string>, total: int, delta: int)

  function Pool(invoices: seq<Entry>): seq<Entry> {
    invoices[..Min(|invoices|, POOL_CAP)]
  }

  predicate InPool(c: Combo, pool: seq<Entry>) {
    forall i :: 0 <= i < |c| ==> c[i] < |pool|
  }

  function Total(pool: seq<Entry>, c: Combo): int
    requires InPool(c, pool)
  {
    if c == [] then 0 else Total(pool, c[..|c| - 1]) + pool[c[|c| - 1]].1
  }

  function Ids(pool: seq<Entry>, c: Combo): seq<string>
    requires InPool(c, pool)
  {
    seq(|c|, i requires 0 <= i < |c| => pool[c[i]].0)
  }

  function BundleOf(pool: seq<Entry>, target: int, c: Combo): Bundle
    requires InPool(c, pool)
  {
    var total := Total(pool, c);
    Bundle(Ids(pool, c), total, total - target)
  }

  predicate InTolerance(pool: seq<Entry>, target: int, tolerance: int, c: Combo) {
    InPool(c, pool) && Abs(Total(pool, c) - target) <= tolerance
  }

  /** The bundles of the in-tolerance combinations among `cs`, in the order of `cs`. */
  function Hits(pool: seq<Entry>, target: int, tolerance: int, cs: seq<Combo>): seq<Bundle> {
    if cs == [] then []
    else
      var c := cs[|cs| - 1];
      Hits(pool, target, tolerance, cs[..|cs| - 1])
      + (if InTolerance(pool, target, tolerance, c) then [BundleOf(pool, target, c)] else [])
  }

  /** Every in-tolerance bundle of the pool, smallest size first. */
  function AllHits(pool: seq<Entry>, target: int, tolerance: int, maxSize: int): seq<Bundle> {
    Hits(pool, target, tolerance, UpToSize(|pool|, Min(maxSize, |pool|)))
  }

  /** What the search collects before sorting: a prefix of all hits. A non-positive cap still
      lets the first hit of size two through before the loops notice it. */
  function Collected(pool: seq<Entry>, target: int, tolerance: int, maxSize: int, cap: int): seq<Bundle> {
    if cap > 0 then
      var hits := AllHits(pool, target, tolerance, maxSize);
      hits[..Min(cap, |hits|)]
    else
      var hits := AllHits(pool, target, tolerance, Min(maxSize, 2));
      hits[..Min(1, |hits|)]
  }

  function Rank(): Bundle -> Key {
    (b: Bundle) => (Abs(b.delta), |b.invoiceIds|)
  }

  /** `s[:n]`, where a negative bound counts from the end. */
  function SliceTo<T>(s: seq<T>, n: int): seq<T> {
    if n >= 0 then s[..Min(n, |s|)] else s[..Max(0, |s| + n)]
  }

  function Bundles(target: int, invoices: seq<Entry>, maxSize: int, tolerance: int, maxResults: int): seq<Bundle> {
    if target <= 0 || invoices == [] then []
    else SliceTo(StableSort(Collected(Pool(invoices), target, tolerance, maxSize, 4 * maxResults), Rank()), maxResults)
  }

  // ---- Hits distribute over concatenation ---------------------------------------------

  lemma {:induction false} HitsAppend(pool: seq<Entry>, target: int, tolerance: int, a: seq<Combo>, b: seq<Combo>)
    ensures Hits(pool, target, tolerance, a + b) == Hits(pool, target, tolerance, a) + Hits(pool, target, tolerance, b)
  {
    if b == [] {
      assert a + b == a;
    } else {
      var n := |b| - 1;
      HitsAppend(pool, target, tolerance, a, b[..n]);
      assert (a + b)[..|a + b| - 1] == a + b[..n];
    }
  }

  /** Cutting the list of combinations cuts the hits. */
  lemma HitsPrefix(pool: seq<Entry>, target: int, tolerance: int, a: seq<Combo>, b: seq<Combo>)
    requires a <= b
    ensures Hits(pool, target, tolerance, a) <= Hits(pool, target, tolerance, b)
  {
    HitsAppend(pool, target, tolerance, a, b[|a|..]);
    assert a + b[|a|..] == b;
  }

  lemma {:induction false} UpToSizePrefix(n: nat, k: int, m: int)
    requires k <= m
    ensures UpToSize(n, k) <= UpToSize(n, m)
    decreases m - k
  {
    if k < m {
      UpToSizePrefix(n, k, m - 1);
    }
  }

  // ---- The search ---------------------------------------------------------------------

  lemma HitsStep(pool: seq<Entry>, target: int, tolerance: int, cs: seq<Combo>, i: nat)
    requires i < |cs|
    ensures Hits(pool, target, tolerance, cs[..i + 1])
            == Hits(pool, target, tolerance, cs[..i])
               + (if InTolerance(pool, target, tolerance, cs[i]) then [BundleOf(pool, target, cs[i])] else [])
    ensures Hits(pool, target, tolerance, cs[..i + 1]) <= Hits(pool, target, tolerance, cs)
  {
    assert cs[..i + 1][..i] == cs[..i];
    HitsPrefix(pool, target, tolerance, cs[..i + 1], cs);
  }

  lemma HitsOfNone(pool: seq<Entry>, target: int, tolerance: int)
    ensures Hits(pool, target, tolerance, []) == []
  {
  }

  lemma PrefixIsCut<T>(a: seq<T>, b: seq<T>)
    requires a <= b
    ensures a == b[..|a|]
  {
  }

  /** One size: extend `before` with hits of size `k` until the cap is reached. */
  method SearchSize(pool: seq<Entry>, target: int, tolerance: int, k: nat, cap: int, before: seq<Bundle>)
    returns (candidates: seq<Bundle>)
    requires before == [] || |before| < cap
    ensures var all := before + Hits(pool, target, tolerance, Combos(0, |pool|, k));
            var stop := Max(cap, |before| + 1);
            candidates == all[..Min(stop, |all|)]
  {
    hide Combos, Hits, Total, Ids;
    HitsOfNone(pool, target, tolerance);
    var combos := Combos(0, |pool|, k);
    ghost var all := before + Hits(pool, target, tolerance, combos);
    candidates := before;
    var i := 0;
    while i < |combos|
      invariant 0 <= i <= |combos|
      invariant candidates == before + Hits(pool, target, tolerance, combos[..i])
      invariant |candidates| < Max(cap, |before| + 1)
    {
      var combo := combos[i];
      CombosSound(0, |pool|, k);
      assert Increasing(combo, 0, |pool|);
      HitsStep(pool, target, tolerance, combos, i);
      var total := Total(pool, combo);
      var delta := total - target;
      if Abs(delta) <= tolerance {
        candidates := candidates + [Bundle(Ids(pool, combo), total, delta)];
        assert candidates == before + Hits(pool, target, tolerance, combos[..i + 1]);
        if |candidates| >= cap {
          PrefixIsCut(candidates, all);
          return;
        }
      }
      i := i + 1;
    }
    assert combos[..|combos|] == combos;
  }

  lemma AllHitsFrom(pool: seq<Entry>, target: int, tolerance: int, maxSize: int, k: int)
    requires 2 <= k <= Min(maxSize, |pool|)
    ensures var upTo := Hits(pool, target, tolerance, UpToSize(|pool|, k));
            && upTo == Hits(pool, target, tolerance, UpToSize(|pool|, k - 1))
                       + Hits(pool, target, tolerance, Combos(0, |pool|, k))
            && upTo <= AllHits(pool, target, tolerance, maxSize)
            && (k == 2 ==> upTo == AllHits(pool, target, tolerance, Min(maxSize, 2)))
  {
    HitsAppend(pool, target, tolerance, UpToSize(|pool|, k - 1), Combos(0, |pool|, k));
    UpToSizePrefix(|pool|, k, Min(maxSize, |pool|));
    HitsPrefix(pool, target, tolerance, UpToSize(|pool|, k), UpToSize(|pool|, Min(maxSize, |pool|)));
  }

  lemma AllHitsFromOne(pool: seq<Entry>, target: int, tolerance: int, maxSize: int)
    ensures Hits(pool, target, tolerance, UpToSize(|pool|, 1)) == []
    ensures Min(maxSize, |pool|) < 2 ==> AllHits(pool, target, tolerance, maxSize) == []
    ensures Min(maxSize, |pool|) < 2 ==> AllHits(pool, target, tolerance, Min(maxSize, 2)) == []
    ensures AllHits(pool, target, tolerance, maxSize)
            == Hits(pool, target, tolerance, UpToSize(|pool|, Min(maxSize, |pool|)))
  {
  }

  method Search(pool: seq<Entry>, target: int, tolerance: int, maxSize: int, cap: int)
    returns (candidates: seq<Bundle>)
    ensures candidates == Collected(pool, target, tolerance, maxSize, cap)
  {
    hide Hits, Combos, AllHits;
    AllHitsFromOne(pool, target, tolerance, maxSize);
    candidates := [];
    var upperSize := Min(maxSize, |pool|);
    var k := 2;
    while k < upperSize + 1
      invariant 2 <= k
      invariant upperSize >= 2 ==> k <= upperSize + 1
      invariant upperSize < 2 ==> k == 2
      invariant candidates == Hits(pool, target, tolerance, UpToSize(|pool|, k - 1))
      invariant k > 2 ==> |candidates| < cap
    {
      ghost var before := candidates;
      AllHitsFrom(pool, target, tolerance, maxSize, k);
      candidates := SearchSize(pool, target, tolerance, k, cap, candidates);
      if |candidates| >= cap {
        return;
      }
      k := k + 1;
    }
  }

  method FindBundles(target: int, invoices: seq<Entry>, maxSize: int, tolerance: int, maxResults: int)
    returns (r: seq<Bundle>)
    ensures r == Bundles(target, invoices, maxSize, tolerance, maxResults)
  {
    if target <= 0 || |invoices| == 0 {
      return [];
    }
    var poolSize := Min(|invoices|, POOL_CAP);
    var pool := invoices[..poolSize];
    var candidates := Search(pool, target, tolerance, maxSize, maxResults * 4);
    candidates := StableSort(candidates, Rank());
    r := SliceTo(candidates, maxResults);
  }

  // ---- What the search promises -------------------------------------------------------

  lemma {:induction false} HitsAreInTolerance(pool: seq<Entry>, target: int, tolerance: int, cs: seq<Combo>, i: nat)
    requires i < |Hits(pool, target, tolerance, cs)|
    ensures exists c :: c in cs && InTolerance(pool, target, tolerance, c)
                        && Hits(pool, target, tolerance, cs)[i] == BundleOf(pool, target, c)
  {
    var front, c := cs[..|cs| - 1], cs[|cs| - 1];
    if i < |Hits(pool, target, tolerance, front)| {
      HitsAreInTolerance(pool, target, tolerance, front, i);
      var d :| d in front && InTolerance(pool, target, tolerance, d)
               && Hits(pool, target, tolerance, front)[i] == BundleOf(pool, target, d);
      assert d in cs;
    } else {
      assert c in cs;
    }
  }

  lemma {:induction false} HitsAreAll(pool: seq<Entry>, target: int, tolerance: int, cs: seq<Combo>, c: Combo)
    requires c in cs && InTolerance(pool, target, tolerance, c)
    ensures BundleOf(pool, target, c) in Hits(pool, target, tolerance, cs)
  {
    var front, last := cs[..|cs| - 1], cs[|cs| - 1];
    if c != last {
      assert cs == front + [last];
      HitsAreAll(pool, target, tolerance, front, c);
    }
  }

  /** `b` is a bundle of 2..maxSize different invoices of the pool, within tolerance. */
  ghost predicate Admissible(pool: seq<Entry>, target: int, tolerance: int, maxSize: int, b: Bundle) {
    exists c: Combo ::
      && 2 <= |c| <= Min(maxSize, |pool|)
      && Increasing(c, 0, |pool|)
      && InTolerance(pool, target, tolerance, c)
      && b == BundleOf(pool, target, c)
  }

  /** The hits are exactly the admissible bundles. */
  lemma AllHitsExact(pool: seq<Entry>, target: int, tolerance: int, maxSize: int, b: Bundle)
    ensures b in AllHits(pool, target, tolerance, maxSize) <==> Admissible(pool, target, tolerance, maxSize, b)
  {
    var cs := UpToSize(|pool|, Min(maxSize, |pool|));
    var hits := AllHits(pool, target, tolerance, maxSize);
    if b in hits {
      var i :| 0 <= i < |hits| && hits[i] == b;
      HitsAreInTolerance(pool, target, tolerance, cs, i);
      var c :| c in cs && InTolerance(pool, target, tolerance, c) && hits[i] == BundleOf(pool, target, c);
      EnumerationExact(|pool|, Min(maxSize, |pool|), c);
    }
    if Admissible(pool, target, tolerance, maxSize, b) {
      var c: Combo :|
        && 2 <= |c| <= Min(maxSize, |pool|)
        && Increasing(c, 0, |pool|)
        && InTolerance(pool, target, tolerance, c)
        && b == BundleOf(pool, target, c);
      EnumerationExact(|pool|, Min(maxSize, |pool|), c);
      HitsAreAll(pool, target, tolerance, cs, c);
    }
  }

  lemma CollectedIsPrefix(pool: seq<Entry>, target: int, tolerance: int, maxSize: int, maxResults: int)
    requires maxResults >= 1
    ensures var got := Collected(pool, target, tolerance, maxSize, 4 * maxResults);
            var hits := AllHits(pool, target, tolerance, maxSize);
            && got <= hits
            && |got| == Min(4 * maxResults, |hits|)
            && (got == hits <==> |hits| <= 4 * maxResults)
  {
  }

  /** Closer to the target, or as close and no larger. */
  predicate NoWorse(a: Bundle, b: Bundle) {
    Abs(a.delta) < Abs(b.delta) || (Abs(a.delta) == Abs(b.delta) && |a.invoiceIds| <= |b.invoiceIds|)
  }

  lemma SortedHead(s: seq<Bundle>, b: Bundle)
    requires SortedBy(s, Rank()) && b in s
    ensures s != [] && NoWorse(s[0], b)
  {
    var i :| 0 <= i < |s| && s[i] == b;
    assert i > 0 ==> KeyLe(Rank()(s[0]), Rank()(s[i]));
  }

  lemma SortMembers(s: seq<Bundle>, b: Bundle)
    ensures b in StableSort(s, Rank()) <==> b in s
  {
    StableSortCorrect(s, Rank());
    WithKeyMembers(s, Rank(), Rank()(b));
    WithKeyMembers(StableSort(s, Rank()), Rank(), Rank()(b));
    assert b in s <==> b in WithKey(s, Rank(), Rank()(b));
  }

  /** The result is ranked by distance from the target and then size, and no longer than asked ... */
  lemma BundlesRanked(target: int, invoices: seq<Entry>, maxSize: int, tolerance: int, maxResults: int)
    ensures var r := Bundles(target, invoices, maxSize, tolerance, maxResults);
            && |r| <= Max(0, maxResults)
            && forall i, j :: 0 <= i < j < |r| ==>
                 || Abs(r[i].delta) < Abs(r[j].delta)
                 || (Abs(r[i].delta) == Abs(r[j].delta) && |r[i].invoiceIds| <= |r[j].invoiceIds|)
  {
    hide Collected, StableSort, SortedBy, Bundles;
    if target > 0 && invoices != [] {
      var got := Collected(Pool(invoices), target, tolerance, maxSize, 4 * maxResults);
      StableSortCorrect(got, Rank());
      BundlesAreFront(target, invoices, maxSize, tolerance, maxResults);
      FrontIsRanked(StableSort(got, Rank()), Bundles(target, invoices, maxSize, tolerance, maxResults));
    } else {
      assert Bundles(target, invoices, maxSize, tolerance, maxResults) == [] by {
        NoBundles(target, invoices, maxSize, tolerance, maxResults);
      }
    }
  }

  lemma NoBundles(target: int, invoices: seq<Entry>, maxSize: int, tolerance: int, maxResults: int)
    requires target <= 0 || invoices == []
    ensures Bundles(target, invoices, maxSize, tolerance, maxResults) == []
  {
  }

  lemma BundlesAreFront(target: int, invoices: seq<Entry>, maxSize: int, tolerance: int, maxResults: int)
    requires target > 0 && invoices != []
    ensures var r := Bundles(target, invoices, maxSize, tolerance, maxResults);
            r <= StableSort(Collected(Pool(invoices), target, tolerance, maxSize, 4 * maxResults), Rank())
            && |r| <= Max(0, maxResults)
  {
    hide Collected, StableSort, Pool;
    StableSortCorrect(Collected(Pool(invoices), target, tolerance, maxSize, 4 * maxResults), Rank());
    if maxResults <= 0 {
      NoResultsForNonPositiveLimit(target, invoices, maxSize, tolerance, maxResults);
    }
  }

  lemma FrontIsRanked(sorted: seq<Bundle>, r: seq<Bundle>)
    requires SortedBy(sorted, Rank()) && r <= sorted
    ensures forall i, j :: 0 <= i < j < |r| ==> NoWorse(r[i], r[j])
  {
    forall i, j | 0 <= i < j < |r| ensures NoWorse(r[i], r[j]) {
      assert KeyLe(Rank()(sorted[i]), Rank()(sorted[j]));
    }
  }

  /** ... as long as the hits allow, with nothing better left behind among those collected ... */
  lemma NothingBetterDropped(target: int, invoices: seq<Entry>, maxSize: int, tolerance: int, maxResults: int, b: Bundle)
    requires target > 0 && invoices != [] && maxResults >= 1
    requires b in Collected(Pool(invoices), target, tolerance, maxSize, 4 * maxResults)
    ensures var r := Bundles(target, invoices, maxSize, tolerance, maxResults);
            && |r| == Min(maxResults, |AllHits(Pool(invoices), target, tolerance, maxSize)|)
            && (b in r || forall i :: 0 <= i < |r| ==> NoWorse(r[i], b))
  {
    hide AllHits, Pool;
    var got := Collected(Pool(invoices), target, tolerance, maxSize, 4 * maxResults);
    var sorted := StableSort(got, Rank());
    StableSortCorrect(got, Rank());
    SortMembers(got, b);
    hide StableSort;
    var j :| 0 <= j < |sorted| && sorted[j] == b;
    var r := Bundles(target, invoices, maxSize, tolerance, maxResults);
    assert r == sorted[..|r|];
    if j < |r| {
      assert r[j] == b;
    } else {
      forall i | 0 <= i < |r| ensures NoWorse(r[i], b) {
        assert KeyLe(Rank()(sorted[i]), Rank()(sorted[j]));
      }
    }
  }

  /** ... and everything in it is admissible, with its delta measured from the target. */
  lemma BundlesSound(target: int, invoices: seq<Entry>, maxSize: int, tolerance: int, maxResults: int, b: Bundle)
    requires b in Bundles(target, invoices, maxSize, tolerance, maxResults)
    ensures target > 0 && Admissible(Pool(invoices), target, tolerance, maxSize, b)
    ensures b.delta == b.total - target && Abs(b.delta) <= tolerance && 2 <= |b.invoiceIds| <= maxSize
  {
    var got := Collected(Pool(invoices), target, tolerance, maxSize, 4 * maxResults);
    assert Bundles(target, invoices, maxSize, tolerance, maxResults) <= StableSort(got, Rank());
    SortMembers(got, b);
    CollectedAdmissible(Pool(invoices), target, tolerance, maxSize, maxResults, b);
  }

  lemma CollectedAdmissible(pool: seq<Entry>, target: int, tolerance: int, maxSize: int, maxResults: int, b: Bundle)
    requires b in Collected(pool, target, tolerance, maxSize, 4 * maxResults)
    ensures Admissible(pool, target, tolerance, maxSize, b)
  {
    if maxResults >= 1 {
      AllHitsExact(pool, target, tolerance, maxSize, b);
    } else {
      AllHitsExact(pool, target, tolerance, Min(maxSize, 2), b);
    }
  }

  /** When the cap did not cut the search, the first result is a best one among all admissible
      bundles of the pool, and there is a result whenever any bundle is admissible. */
  lemma BestBundleFirst(target: int, invoices: seq<Entry>, maxSize: int, tolerance: int, maxResults: int, b: Bundle)
    requires target > 0 && invoices != [] && maxResults >= 1
    requires |AllHits(Pool(invoices), target, tolerance, maxSize)| <= 4 * maxResults
    requires Admissible(Pool(invoices), target, tolerance, maxSize, b)
    ensures var r := Bundles(target, invoices, maxSize, tolerance, maxResults);
            && r != []
            && (|| Abs(r[0].delta) < Abs(b.delta)
                || (Abs(r[0].delta) == Abs(b.delta) && |r[0].invoiceIds| <= |b.invoiceIds|))
  {
    var pool := Pool(invoices);
    var hits := AllHits(pool, target, tolerance, maxSize);
    CollectedIsPrefix(pool, target, tolerance, maxSize, maxResults);
    AllHitsExact(pool, target, tolerance, maxSize, b);
    StableSortCorrect(hits, Rank());
    SortMembers(hits, b);
    hide Admissible, AllHits, StableSort, SortedBy;
    SortedHead(StableSort(hits, Rank()), b);
  }

  lemma FoundIffHit(target: int, invoices: seq<Entry>, maxSize: int, tolerance: int, maxResults: int)
    requires target > 0 && invoices != [] && maxResults >= 1
    ensures Bundles(target, invoices, maxSize, tolerance, maxResults) == []
            <==> AllHits(Pool(invoices), target, tolerance, maxSize) == []
  {
    hide AllHits, StableSort, Pool;
    StableSortCorrect(Collected(Pool(invoices), target, tolerance, maxSize, 4 * maxResults), Rank());
  }

  /** With or without the cap, some bundle is returned exactly when one is admissible. */
  lemma FoundIffAdmissible(target: int, invoices: seq<Entry>, maxSize: int, tolerance: int, maxResults: int)
    requires target > 0 && invoices != [] && maxResults >= 1
    ensures Bundles(target, invoices, maxSize, tolerance, maxResults) != []
            <==> exists b :: Admissible(Pool(invoices), target, tolerance, maxSize, b)
  {
    hide Admissible, AllHits, Collected, StableSort, Bundles, Pool;
    var pool := Pool(invoices);
    var hits := AllHits(pool, target, tolerance, maxSize);
    FoundIffHit(target, invoices, maxSize, tolerance, maxResults);
    if hits != [] {
      AllHitsExact(pool, target, tolerance, maxSize, hits[0]);
    }
    forall b | Admissible(pool, target, tolerance, maxSize, b) ensures hits != [] {
      AllHitsExact(pool, target, tolerance, maxSize, b);
    }
  }

  /** A result limit that is not positive yields nothing. */
  lemma NoResultsForNonPositiveLimit(target: int, invoices: seq<Entry>, maxSize: int, tolerance: int, maxResults: int)
    requires maxResults <= 0
    ensures Bundles(target, invoices, maxSize, tolerance, maxResults) == []
  {
    if target > 0 && invoices != [] {
      StableSortCorrect(Collected(Pool(invoices), target, tolerance, maxSize, 4 * maxResults), Rank());
    }
  }
}
