/** What the bundler's two cut-offs cost: it looks at the first twenty invoices only, and stops
    after four hits per result asked for. Both are measured against the whole invoice list. */
module BundlerLimits {
  import opened Common
  import opened Sorting
  import opened Combinations
  import opened Bundler

  // ---- Hits never repeat ----------------------------------------------------------------

  ghost predicate IdsDiffer(pool: seq<Entry>) {
    forall i, j :: 0 <= i < j < |pool| ==> pool[i].0 != pool[j].0
  }

  /** Different ids name different positions, so a bundle remembers its combination. */
  lemma SameIdsSameChoice(pool: seq<Entry>, target: int, c: Combo, d: Combo)
    requires IdsDiffer(pool) && InPool(c, pool) && InPool(d, pool)
    requires BundleOf(pool, target, c) == BundleOf(pool, target, d)
    ensures c == d
  {
    var ids, ids' := Ids(pool, c), Ids(pool, d);
    assert |ids| == |c| && |ids'| == |d|;
    forall i | 0 <= i < |c| ensures c[i] == d[i] {
      assert ids[i] == pool[c[i]].0 && ids'[i] == pool[d[i]].0;
    }
  }

  lemma {:induction false} HitsNeverRepeat(pool: seq<Entry>, target: int, tolerance: int, cs: seq<Combo>)
    requires IdsDiffer(pool) && NoRepeats(cs)
    ensures NoRepeats(Hits(pool, target, tolerance, cs))
  {
    if cs != [] {
      var front, c := cs[..|cs| - 1], cs[|cs| - 1];
      HitsNeverRepeat(pool, target, tolerance, front);
      var earlier := Hits(pool, target, tolerance, front);
      if InTolerance(pool, target, tolerance, c) {
        forall i | 0 <= i < |earlier| ensures earlier[i] != BundleOf(pool, target, c) {
          HitsAreInTolerance(pool, target, tolerance, front, i);
          var d :| d in front && InTolerance(pool, target, tolerance, d) && earlier[i] == BundleOf(pool, target, d);
          if earlier[i] == BundleOf(pool, target, c) {
            SameIdsSameChoice(pool, target, c, d);
          }
        }
      }
    }
  }

  /** Invoices with different ids never yield the same bundle twice. */
  lemma AllHitsNeverRepeat(pool: seq<Entry>, target: int, tolerance: int, maxSize: int)
    requires IdsDiffer(pool)
    ensures NoRepeats(AllHits(pool, target, tolerance, maxSize))
  {
    var cs := UpToSize(|pool|, Min(maxSize, |pool|));
    forall i, j | 0 <= i < j < |cs| ensures cs[i] != cs[j] {
      EnumerationOrdered(|pool|, Min(maxSize, |pool|), i, j);
    }
    HitsNeverRepeat(pool, target, tolerance, cs);
  }

  // ---- The cap --------------------------------------------------------------------------

  /** The search keeps the first 4*limit hits, and misses no admissible bundle of its pool
      exactly when there are no more than that. */
  lemma NothingMissedIff(pool: seq<Entry>, target: int, tolerance: int, maxSize: int, maxResults: int)
    requires IdsDiffer(pool) && maxResults >= 1
    ensures var got := Collected(pool, target, tolerance, maxSize, 4 * maxResults);
            var hits := AllHits(pool, target, tolerance, maxSize);
            && got <= hits && |got| == Min(4 * maxResults, |hits|)
            && ((forall b :: Admissible(pool, target, tolerance, maxSize, b) ==> b in got)
                <==> |hits| <= 4 * maxResults)
  {
    var got := Collected(pool, target, tolerance, maxSize, 4 * maxResults);
    var hits := AllHits(pool, target, tolerance, maxSize);
    CollectedIsPrefix(pool, target, tolerance, maxSize, maxResults);
    AllHitsNeverRepeat(pool, target, tolerance, maxSize);
    hide AllHits, Collected, Admissible, IdsDiffer;
    if |hits| <= 4 * maxResults {
      forall b | Admissible(pool, target, tolerance, maxSize, b) ensures b in got {
        AllHitsExact(pool, target, tolerance, maxSize, b);
      }
    } else {
      var missed := hits[|got|];
      AllHitsExact(pool, target, tolerance, maxSize, missed);
      forall i | 0 <= i < |got| ensures got[i] != missed {
        assert got[i] == hits[i];
      }
    }
  }

  // ---- The pool -------------------------------------------------------------------------

  lemma {:induction false} PoolBundle(invoices: seq<Entry>, target: int, c: Combo)
    requires InPool(c, Pool(invoices))
    ensures InPool(c, invoices) && BundleOf(Pool(invoices), target, c) == BundleOf(invoices, target, c)
  {
    if c != [] {
      PoolBundle(invoices, target, c[..|c| - 1]);
      assert Total(Pool(invoices), c[..|c| - 1]) == Total(invoices, c[..|c| - 1]);
    }
    assert Ids(Pool(invoices), c) == Ids(invoices, c);
  }

  /** An admissible choice from the whole list. */
  ghost predicate Choice(invoices: seq<Entry>, target: int, tolerance: int, maxSize: int, c: Combo) {
    && 2 <= |c| <= maxSize
    && Increasing(c, 0, |invoices|)
    && InTolerance(invoices, target, tolerance, c)
  }

  ghost predicate EarlyChoice(invoices: seq<Entry>, target: int, tolerance: int, maxSize: int, c: Combo) {
    Choice(invoices, target, tolerance, maxSize, c) && c[|c| - 1] < POOL_CAP
  }

  /** The pool's choices are the list's choices that end before position twenty. */
  lemma PoolChoices(invoices: seq<Entry>, target: int, tolerance: int, maxSize: int, c: Combo)
    ensures Choice(Pool(invoices), target, tolerance, maxSize, c) <==> EarlyChoice(invoices, target, tolerance, maxSize, c)
  {
    if |c| >= 2 {
      if Increasing(c, 0, |invoices|) && c[|c| - 1] < POOL_CAP {
        forall i | 0 <= i < |c| ensures c[i] < |Pool(invoices)| {
          assert i < |c| - 1 ==> c[i] < c[|c| - 1];
        }
      }
      if Increasing(c, 0, |Pool(invoices)|) {
        PoolBundle(invoices, target, c);
      }
    }
  }

  lemma AdmissibleIffChoice(pool: seq<Entry>, target: int, tolerance: int, maxSize: int, b: Bundle)
    ensures Admissible(pool, target, tolerance, maxSize, b)
            <==> exists c :: Choice(pool, target, tolerance, maxSize, c) && b == BundleOf(pool, target, c)
  {
    if c :| Choice(pool, target, tolerance, maxSize, c) && b == BundleOf(pool, target, c) {
      ChoiceFits(c, 0, |pool|);
    }
    if Admissible(pool, target, tolerance, maxSize, b) {
      var c: Combo :|
        && 2 <= |c| <= Min(maxSize, |pool|)
        && Increasing(c, 0, |pool|)
        && InTolerance(pool, target, tolerance, c)
        && b == BundleOf(pool, target, c);
      assert Choice(pool, target, tolerance, maxSize, c);
    }
  }

  /** Something is returned exactly when some choice of 2..maxSize invoices of the whole list is
      within tolerance and ends before position twenty. */
  lemma FoundIffEarlyChoice(target: int, invoices: seq<Entry>, maxSize: int, tolerance: int, maxResults: int)
    requires target > 0 && invoices != [] && maxResults >= 1
    ensures Bundles(target, invoices, maxSize, tolerance, maxResults) != []
            <==> exists c :: EarlyChoice(invoices, target, tolerance, maxSize, c)
  {
    hide Bundles, Admissible, Choice, EarlyChoice, Pool;
    FoundIffAdmissible(target, invoices, maxSize, tolerance, maxResults);
    ChoicesMeet(invoices, target, tolerance, maxSize);
  }

  lemma ChoicesMeet(invoices: seq<Entry>, target: int, tolerance: int, maxSize: int)
    ensures (exists b :: Admissible(Pool(invoices), target, tolerance, maxSize, b))
            <==> exists c :: EarlyChoice(invoices, target, tolerance, maxSize, c)
  {
    hide Admissible, EarlyChoice, Pool;
    var pool := Pool(invoices);
    if b :| Admissible(pool, target, tolerance, maxSize, b) {
      AdmissibleIffChoice(pool, target, tolerance, maxSize, b);
      var c :| Choice(pool, target, tolerance, maxSize, c) && b == BundleOf(pool, target, c);
      PoolChoices(invoices, target, tolerance, maxSize, c);
    }
    if c :| EarlyChoice(invoices, target, tolerance, maxSize, c) {
      PoolChoices(invoices, target, tolerance, maxSize, c);
      AdmissibleIffChoice(pool, target, tolerance, maxSize, BundleOf(pool, target, c));
    }
  }

  // ---- Both together --------------------------------------------------------------------

  ghost predicate BestAmong(hits: seq<Bundle>, b: Bundle) {
    forall j :: 0 <= j < |hits| ==> NoWorse(b, hits[j])
  }

  /** There is a result, and no admissible bundle of the whole list ranks before it. */
  ghost predicate HeadIsBest(target: int, invoices: seq<Entry>, maxSize: int, tolerance: int, maxResults: int) {
    var r := Bundles(target, invoices, maxSize, tolerance, maxResults);
    r != [] && forall b :: Admissible(invoices, target, tolerance, maxSize, b) ==> NoWorse(r[0], b)
  }

  /** The first result comes from the hits the cap let through and ranks before all of those. */
  lemma HeadOfCollected(target: int, invoices: seq<Entry>, maxSize: int, tolerance: int, maxResults: int) returns (h: nat)
    requires target > 0 && invoices != [] && maxResults >= 1
    requires AllHits(Pool(invoices), target, tolerance, maxSize) != []
    ensures var hits := AllHits(Pool(invoices), target, tolerance, maxSize);
            var r := Bundles(target, invoices, maxSize, tolerance, maxResults);
            && h < Min(4 * maxResults, |hits|) && r != [] && r[0] == hits[h]
            && forall i :: 0 <= i < Min(4 * maxResults, |hits|) ==> NoWorse(r[0], hits[i])
  {
    hide AllHits, Pool;
    var hits := AllHits(Pool(invoices), target, tolerance, maxSize);
    var got := Collected(Pool(invoices), target, tolerance, maxSize, 4 * maxResults);
    StableSortCorrect(got, Rank());
    var sorted := StableSort(got, Rank());
    hide StableSort, SortedBy;
    SortMembers(got, sorted[0]);
    h :| 0 <= h < |got| && got[h] == sorted[0];
    forall i | 0 <= i < |got| ensures NoWorse(sorted[0], hits[i]) {
      assert got[i] in got;
      SortMembers(got, got[i]);
      SortedHead(sorted, got[i]);
    }
  }

  /** "Smallest delta first" holds for the whole list exactly when one of its best bundles is
      among the first 4*limit hits of the twenty-invoice pool. */
  lemma HeadIsBestIff(target: int, invoices: seq<Entry>, maxSize: int, tolerance: int, maxResults: int)
    requires target > 0 && invoices != [] && maxResults >= 1
    ensures var hits := AllHits(Pool(invoices), target, tolerance, maxSize);
            HeadIsBest(target, invoices, maxSize, tolerance, maxResults)
            <==> exists i :: 0 <= i < Min(4 * maxResults, |hits|)
                             && BestAmong(AllHits(invoices, target, tolerance, maxSize), hits[i])
  {
    hide AllHits, Pool, Bundles, Admissible;
    var hits := AllHits(Pool(invoices), target, tolerance, maxSize);
    var all := AllHits(invoices, target, tolerance, maxSize);
    var r := Bundles(target, invoices, maxSize, tolerance, maxResults);
    FoundIffHit(target, invoices, maxSize, tolerance, maxResults);
    if hits != [] {
      var h := HeadOfCollected(target, invoices, maxSize, tolerance, maxResults);
      if HeadIsBest(target, invoices, maxSize, tolerance, maxResults) {
        forall j | 0 <= j < |all| ensures NoWorse(r[0], all[j]) {
          AllHitsExact(invoices, target, tolerance, maxSize, all[j]);
        }
        assert BestAmong(all, hits[h]);
      }
      if i :| 0 <= i < Min(4 * maxResults, |hits|) && BestAmong(all, hits[i]) {
        forall b | Admissible(invoices, target, tolerance, maxSize, b) ensures NoWorse(r[0], b) {
          AllHitsExact(invoices, target, tolerance, maxSize, b);
          var j :| 0 <= j < |all| && all[j] == b;
          assert NoWorse(r[0], hits[i]) && NoWorse(hits[i], all[j]);
        }
      }
    }
  }

  // ---- Small pools ----------------------------------------------------------------------

  lemma {:induction false} HitsAreFewer(pool: seq<Entry>, target: int, tolerance: int, cs: seq<Combo>)
    ensures |Hits(pool, target, tolerance, cs)| <= |cs|
  {
    if cs != [] {
      HitsAreFewer(pool, target, tolerance, cs[..|cs| - 1]);
    }
  }

  function ChooseUpTo(n: nat, k: int): nat
    decreases k
  {
    if k < 2 then 0 else ChooseUpTo(n, k - 1) + Choose(n, k)
  }

  lemma {:induction false} EnumerationCount(n: nat, k: int)
    ensures |UpToSize(n, k)| == ChooseUpTo(n, k)
    decreases k
  {
    if k >= 2 {
      EnumerationCount(n, k - 1);
      CombosCount(0, n, k);
    }
  }

  /** When there are no more combinations than the cap, nothing is lost: the first result is a best
      bundle of the whole list. */
  lemma FewCombinationsAreExact(target: int, invoices: seq<Entry>, maxSize: int, tolerance: int, maxResults: int, b: Bundle)
    requires target > 0 && invoices != [] && |invoices| <= POOL_CAP && maxResults >= 1
    requires ChooseUpTo(|invoices|, Min(maxSize, |invoices|)) <= 4 * maxResults
    requires Admissible(invoices, target, tolerance, maxSize, b)
    ensures var r := Bundles(target, invoices, maxSize, tolerance, maxResults);
            r != [] && NoWorse(r[0], b)
  {
    hide Bundles, Admissible, UpToSize, Hits, ChooseUpTo;
    assert Pool(invoices) == invoices;
    EnumerationCount(|invoices|, Min(maxSize, |invoices|));
    HitsAreFewer(invoices, target, tolerance, UpToSize(|invoices|, Min(maxSize, |invoices|)));
    BestBundleFirst(target, invoices, maxSize, tolerance, maxResults, b);
  }

  lemma ElevenOfFour()
    ensures ChooseUpTo(4, 4) == 11
  {
    assert Choose(4, 2) == 6 && Choose(4, 3) == 4 && Choose(4, 4) == 1;
    assert ChooseUpTo(4, 2) == ChooseUpTo(4, 1) + 6;
  }

  lemma TripleTotal(pool: seq<Entry>, x: nat, y: nat, z: nat)
    requires x < |pool| && y < |pool| && z < |pool|
    ensures InPool([x, y, z], pool) && Total(pool, [x, y, z]) == pool[x].1 + pool[y].1 + pool[z].1
  {
    hide Total;
    assert [x, y] + [z] == [x, y, z];
    PairTotal(pool, x, y);
    LastTotal(pool, [x, y], z);
  }

  lemma LastTotal(pool: seq<Entry>, front: Combo, z: nat)
    requires InPool(front, pool) && z < |pool|
    ensures InPool(front + [z], pool) && Total(pool, front + [z]) == Total(pool, front) + pool[z].1
  {
    assert (front + [z])[..|front|] == front;
  }

  /** An exact triple comes before a pair that is 0.40 off. */
  lemma ExactTripleBeatsLoosePair()
    ensures var invoices := [("A", 5000), ("B", 5040), ("C", 2000), ("D", 3000)];
            var r := Bundles(10000, invoices, MAX_BUNDLE_SIZE, DEFAULT_TOLERANCE, DEFAULT_MAX_RESULTS);
            && InTolerance(invoices, 10000, DEFAULT_TOLERANCE, [0, 1])
            && Admissible(invoices, 10000, DEFAULT_TOLERANCE, MAX_BUNDLE_SIZE, Bundle(["A", "C", "D"], 10000, 0))
            && r != [] && r[0].delta == 0 && |r[0].invoiceIds| <= 3
  {
    var invoices: seq<Entry> := [("A", 5000), ("B", 5040), ("C", 2000), ("D", 3000)];
    hide Bundles, Total, ChooseUpTo;
    PairTotal(invoices, 0, 1);
    TripleTotal(invoices, 0, 2, 3);
    assert Increasing([0, 2, 3], 0, 4) && InTolerance(invoices, 10000, DEFAULT_TOLERANCE, [0, 2, 3]);
    ElevenOfFour();
    FewCombinationsAreExact(10000, invoices, MAX_BUNDLE_SIZE, DEFAULT_TOLERANCE, DEFAULT_MAX_RESULTS,
                            Bundle(["A", "C", "D"], 10000, 0));
  }

  // ---- Inputs on which the best bundle is lost, at the default limits ---------------------

  ghost predicate AllAmounts(pool: seq<Entry>, amount: int) {
    forall i :: 0 <= i < |pool| ==> pool[i].1 == amount
  }

  lemma {:induction false} EqualAmountsTotal(pool: seq<Entry>, amount: int, c: Combo)
    requires AllAmounts(pool, amount) && InPool(c, pool)
    ensures Total(pool, c) == amount * |c|
  {
    if c != [] {
      EqualAmountsTotal(pool, amount, c[..|c| - 1]);
    }
  }

  /** Twenty large invoices before a one-cent one: the only exact pair lies behind the pool's
      cut, and the bundler returns nothing. */
  lemma PoolCanHideTheOnly(invoices: seq<Entry>)
    requires |invoices| == 21 && AllAmounts(invoices[..20], 100000) && invoices[20].1 == 1
    ensures Choice(invoices, 100001, DEFAULT_TOLERANCE, MAX_BUNDLE_SIZE, [0, 20])
    ensures InPool([0, 20], invoices) && BundleOf(invoices, 100001, [0, 20]).delta == 0
    ensures Bundles(100001, invoices, MAX_BUNDLE_SIZE, DEFAULT_TOLERANCE, DEFAULT_MAX_RESULTS) == []
  {
    hide Bundles, Admissible, Total, Choice, BundleOf, InPool;
    PairBehindThePool(invoices);
    FoundIffAdmissible(100001, invoices, MAX_BUNDLE_SIZE, DEFAULT_TOLERANCE, DEFAULT_MAX_RESULTS);
    assert Pool(invoices) == invoices[..20];
    LargeAmountsMiss(invoices[..20]);
  }

  lemma PairBehindThePool(invoices: seq<Entry>)
    requires |invoices| == 21 && AllAmounts(invoices[..20], 100000) && invoices[20].1 == 1
    ensures Choice(invoices, 100001, DEFAULT_TOLERANCE, MAX_BUNDLE_SIZE, [0, 20])
    ensures InPool([0, 20], invoices) && BundleOf(invoices, 100001, [0, 20]).delta == 0
  {
    hide Total, Ids;
    assert invoices[0] == invoices[..20][0];
    PairTotal(invoices, 0, 20);
  }

  lemma LargeAmountsMiss(pool: seq<Entry>)
    requires AllAmounts(pool, 100000)
    ensures forall b :: !Admissible(pool, 100001, DEFAULT_TOLERANCE, MAX_BUNDLE_SIZE, b)
  {
    forall c: Combo | |c| >= 2 && InPool(c, pool) ensures !InTolerance(pool, 100001, DEFAULT_TOLERANCE, c) {
      EqualAmountsTotal(pool, 100000, c);
    }
    hide InTolerance, Total, Ids, Increasing;
  }

  lemma PairTotal(pool: seq<Entry>, x: nat, y: nat)
    requires x < |pool| && y < |pool|
    ensures InPool([x, y], pool) && Total(pool, [x, y]) == pool[x].1 + pool[y].1
  {
    assert [x, y][..1] == [x] && [x][..0] == [];
    assert Total(pool, [x]) == Total(pool, []) + pool[x].1;
    assert Total(pool, [x, y]) == Total(pool, [x]) + pool[y].1;
  }

  ghost predicate AllLoose(pool: seq<Entry>, target: int, tolerance: int, cs: seq<Combo>, gap: nat) {
    forall i :: 0 <= i < |cs| ==>
      InTolerance(pool, target, tolerance, cs[i]) && Abs(BundleOf(pool, target, cs[i]).delta) >= gap
  }

  /** If every combination hits and none closely, so do all the hits, one each. */
  lemma {:induction false} LooseHits(pool: seq<Entry>, target: int, tolerance: int, cs: seq<Combo>, gap: nat)
    requires AllLoose(pool, target, tolerance, cs, gap)
    ensures |Hits(pool, target, tolerance, cs)| == |cs|
    ensures forall i :: 0 <= i < |cs| ==> Abs(Hits(pool, target, tolerance, cs)[i].delta) >= gap
  {
    if cs != [] {
      LooseHits(pool, target, tolerance, cs[..|cs| - 1], gap);
    }
  }

  lemma HeadOfLoose(got: seq<Bundle>, gap: nat)
    requires got != [] && forall i :: 0 <= i < |got| ==> Abs(got[i].delta) >= gap
    ensures StableSort(got, Rank()) != [] && Abs(StableSort(got, Rank())[0].delta) >= gap
  {
    StableSortCorrect(got, Rank());
    var b := StableSort(got, Rank())[0];
    SortMembers(got, b);
    hide StableSort;
    var i :| 0 <= i < |got| && got[i] == b;
  }

  /** If the first 4*limit combinations all hit, and loosely, so does the head of the result. */
  lemma LooseFrontWins(target: int, invoices: seq<Entry>, maxSize: int, tolerance: int, maxResults: int,
                       cs: seq<Combo>, gap: nat)
    requires target > 0 && invoices != [] && maxResults >= 1 && |cs| == 4 * maxResults
    requires cs <= UpToSize(|Pool(invoices)|, Min(maxSize, |Pool(invoices)|))
    requires AllLoose(Pool(invoices), target, tolerance, cs, gap)
    ensures var r := Bundles(target, invoices, maxSize, tolerance, maxResults);
            r != [] && Abs(r[0].delta) >= gap
  {
    hide AllLoose, Hits, StableSort, UpToSize, Pool;
    var pool := Pool(invoices);
    LooseHits(pool, target, tolerance, cs, gap);
    HitsPrefix(pool, target, tolerance, cs, UpToSize(|pool|, Min(maxSize, |pool|)));
    var got := Hits(pool, target, tolerance, cs);
    PrefixIsCut(got, AllHits(pool, target, tolerance, maxSize));
    assert Collected(pool, target, tolerance, maxSize, 4 * maxResults) == got;
    HeadOfLoose(got, gap);
  }

  lemma PairsComeFirst(n: nat)
    ensures UpToSize(n, 2) == Combos(0, n, 2)
  {
    hide Combos;
    assert UpToSize(n, 2) == UpToSize(n, 1) + Combos(0, n, 2);
  }

  lemma PrefixOfChoices(all: seq<Combo>, cs: seq<Combo>, n: nat, k: nat)
    requires cs <= all && AllChoices(all, 0, n, k)
    ensures AllChoices(cs, 0, n, k)
  {
    forall i | 0 <= i < |cs| ensures |cs[i]| == k && Increasing(cs[i], 0, n) {
      assert cs[i] == all[i];
    }
  }

  /** The first twenty combinations of eight positions are pairs. */
  lemma TwentyPairs() returns (cs: seq<Combo>)
    ensures |cs| == 20 && cs <= UpToSize(8, 5) && AllChoices(cs, 0, 8, 2)
  {
    hide Combos, AllChoices, UpToSize;
    CombosCount(0, 8, 2);
    assert Choose(8, 2) == 28;
    CombosSound(0, 8, 2);
    UpToSizePrefix(8, 2, 5);
    PairsComeFirst(8);
    cs := Combos(0, 8, 2)[..20];
    PrefixOfChoices(Combos(0, 8, 2), cs, 8, 2);
  }

  lemma EqualPairsAreLoose(pool: seq<Entry>, cs: seq<Combo>)
    requires |pool| == 8 && AllAmounts(pool, 40) && AllChoices(cs, 0, 8, 2)
    ensures AllLoose(pool, 120, DEFAULT_TOLERANCE, cs, 40)
  {
    forall i | 0 <= i < |cs|
      ensures InTolerance(pool, 120, DEFAULT_TOLERANCE, cs[i]) && Abs(BundleOf(pool, 120, cs[i]).delta) >= 40
    {
      EqualAmountsTotal(pool, 40, cs[i]);
    }
  }

  /** Eight invoices of 0.40 and a wire of 1.20: any three are exact, but twenty loose pairs fill
      the cap first, and the head of the result is 0.40 off. */
  lemma CapCanHideTheBest(invoices: seq<Entry>)
    requires |invoices| == 8 && AllAmounts(invoices, 40)
    ensures Choice(invoices, 120, DEFAULT_TOLERANCE, MAX_BUNDLE_SIZE, [0, 1, 2])
    ensures BundleOf(invoices, 120, [0, 1, 2]).delta == 0
    ensures var r := Bundles(120, invoices, MAX_BUNDLE_SIZE, DEFAULT_TOLERANCE, DEFAULT_MAX_RESULTS);
            r != [] && Abs(r[0].delta) >= 40
  {
    hide Bundles, UpToSize, AllLoose, AllChoices, Total;
    EqualAmountsTotal(invoices, 40, [0, 1, 2]);
    assert Pool(invoices) == invoices;
    var cs := TwentyPairs();
    EqualPairsAreLoose(invoices, cs);
    LooseFrontWins(120, invoices, MAX_BUNDLE_SIZE, DEFAULT_TOLERANCE, DEFAULT_MAX_RESULTS, cs, 40);
  }
}
