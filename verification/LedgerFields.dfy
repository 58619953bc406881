/** Ingest in the fields of its rows: which invoices become candidates, which the bundler may
    combine, and how the outcome follows from amounts, dates, payers and statuses. */
module LedgerFields {
  import opened Common
  import opened Features
  import opened IdList
  import opened Combinations
  import opened Ledger
  import opened LedgerInvariant
  import opened LedgerRuns
  import Bundler
  import BundlerLimits

  // ---- The conditions -------------------------------------------------------------------

  /** Open or partly paid, and the resolved payer's if there is one. */
  predicate Collectable(inv: Invoice, payer: Option<string>) {
    && (inv.status == InvoiceStatus.Open || inv.status == InvoiceStatus.Partial)
    && (payer.Some? ==> inv.payer == payer.value)
  }

  /** The wire may pay this invoice alone: within half its amount and sixty days. */
  predicate FitsAlone(inv: Invoice, a: Arrival) {
    && Collectable(inv, a.payer)
    && inv.amount > 0 && 2 * Abs(a.amount - inv.amount) <= inv.amount
    && -60 <= a.receivedOn - inv.dueDate <= 60
  }

  function ScoreOf(ranker: Ranker, a: Arrival, inv: Invoice): Score {
    ranker(WireView(a.wireId, a.amount, a.receivedOn, a.memo, a.sender),
           InvoiceView(inv.id, inv.payer, inv.amount, inv.dueDate))
  }

  ghost predicate Rising(rows: seq<nat>, n: nat) {
    && (forall k :: 0 <= k < |rows| ==> rows[k] < n)
    && (forall j, k :: 0 <= j < k < |rows| ==> rows[j] < rows[k])
  }

  // ---- Filters by position --------------------------------------------------------------

  /** The positions a filter keeps, in order. */
  lemma {:induction false} FilterPositions<T>(s: seq<T>, p: T -> bool) returns (rows: seq<nat>)
    ensures Rising(rows, |s|) && |rows| == |Filter(s, p)|
    ensures forall k :: 0 <= k < |rows| ==> Filter(s, p)[k] == s[rows[k]]
    ensures forall i: nat :: i < |s| ==> (i in rows <==> p(s[i]))
  {
    hide Filter;
    rows := [];
    if s == [] {
      FilterEmpty(p);
    } else {
      var n := |s| - 1;
      var front := FilterPositions(s[..n], p);
      rows := if p(s[n]) then front + [n] else front;
      KeptWithLast(s, p, front, rows);
      FilterLast(s, p);
      IndexedWithLast(s, Filter(s[..n], p), front, if p(s[n]) then [n] else []);
      assert rows == front + (if p(s[n]) then [n] else []);
    }
  }

  lemma FilterEmpty<T>(p: T -> bool)
    ensures Filter([], p) == []
  {
  }

  lemma IndexedWithLast<T>(s: seq<T>, kept: seq<T>, front: seq<nat>, last: seq<nat>)
    requires s != [] && Rising(front, |s| - 1) && |kept| == |front|
    requires forall k :: 0 <= k < |front| ==> kept[k] == s[..|s| - 1][front[k]]
    requires last == [] || last == [|s| - 1]
    ensures Rising(front + last, |s|)
    ensures forall k :: 0 <= k < |front| ==> kept[k] == s[front[k]]
  {
  }

  lemma FilterLast<T>(s: seq<T>, p: T -> bool)
    requires s != []
    ensures var n := |s| - 1;
            Filter(s, p) == if p(s[n]) then Filter(s[..n], p) + [s[n]] else Filter(s[..n], p)
  {
    var n := |s| - 1;
    assert Filter(s[..n], p) + [] == Filter(s[..n], p);
  }

  lemma KeptWithLast<T>(s: seq<T>, p: T -> bool, front: seq<nat>, rows: seq<nat>)
    requires s != [] && Rising(front, |s| - 1)
    requires forall i: nat :: i < |s| - 1 ==> (i in front <==> p(s[..|s| - 1][i]))
    requires rows == if p(s[|s| - 1]) then front + [|s| - 1] else front
    ensures forall i: nat :: i < |s| ==> (i in rows <==> p(s[i]))
  {
    var n := |s| - 1;
    forall i: nat | i < |s| ensures i in rows <==> p(s[i]) {
      if i < n {
        assert s[..n][i] == s[i];
        assert i in front <==> p(s[i]);
      } else {
        assert n !in front;
      }
    }
  }

  function Fits(a: Arrival): Invoice -> bool {
    (inv: Invoice) => FitsAlone(inv, a)
  }

  function ForBundles(payer: Option<string>): Invoice -> bool {
    (inv: Invoice) => Collectable(inv, payer)
  }

  lemma HalfIff(d: nat, amount: int)
    requires amount > 0
    ensures d as real / amount as real <= 0.5 <==> 2 * d <= amount
  {
    var q := d as real / amount as real;
    assert q * amount as real == d as real;
    if q <= 0.5 {
      assert q * amount as real <= 0.5 * amount as real;
    } else {
      assert q * amount as real > 0.5 * amount as real;
    }
  }

  lemma FitsIsCandidate(inv: Invoice, a: Arrival)
    ensures FitsAlone(inv, a) <==> IsOpenRow(inv) && IsCandidate(ViewOf(a), a.payer)(View(inv))
  {
    if inv.amount > 0 {
      HalfIff(Abs(a.amount - inv.amount), inv.amount);
    }
  }

  lemma {:induction false} CandidatesAreFits(invoices: seq<Invoice>, a: Arrival)
    ensures Candidates(ViewOf(a), Views(OpenRows(invoices)), a.payer) == Views(Filter(invoices, Fits(a)))
  {
    if invoices != [] {
      var n := |invoices| - 1;
      var front, last := invoices[..n], invoices[n];
      CandidatesAreFits(front, a);
      FitsIsCandidate(last, a);
      FilterLast(invoices, Fits(a));
      FilterLast(invoices, IsOpenRow);
      hide Filter, FitsAlone;
      var views, fits := Views(OpenRows(front)), Filter(front, Fits(a));
      if IsOpenRow(last) {
        assert Views(OpenRows(front) + [last]) == views + [View(last)];
        FilterSingle(views, View(last), IsCandidate(ViewOf(a), a.payer));
        assert Views(fits + [last]) == Views(fits) + [View(last)];
        assert Views(fits) + [] == Views(fits);
      }
    }
  }

  lemma {:induction false} BundleRowsAreCollectable(invoices: seq<Invoice>, payer: Option<string>)
    ensures BundleRows(invoices, payer) == Filter(invoices, ForBundles(payer))
  {
    if invoices != [] {
      var n := |invoices| - 1;
      var front, last := invoices[..n], invoices[n];
      BundleRowsAreCollectable(front, payer);
      FilterLast(invoices, ForBundles(payer));
      FilterLast(invoices, IsOpenRow);
      hide Filter;
      var rows := BundleRows(front, payer);
      if IsOpenRow(last) {
        FilterSingle(OpenRows(front), last, OfScope(payer));
        assert rows + [] == rows;
      }
    }
  }

  // ---- What ingest stores ---------------------------------------------------------------

  /** Ingest stores one single candidate per invoice that fits, in table order, with the ranker's
      scores; at most a bundle after them; and the wire with its final status. */
  lemma StoredSingles(l: LedgerState, a: Arrival, ranker: Ranker, withTrust: bool, now: Time) returns (rows: seq<nat>)
    ensures Rising(rows, |l.invoices|)
    ensures forall i: nat :: i < |l.invoices| ==> (i in rows <==> FitsAlone(l.invoices[i], a))
    ensures var (after, r) := Ingested(l, a, ranker, withTrust, now);
            && r.candidateCount == |rows|
            && |l.candidates| + |rows| <= |after.candidates| <= |l.candidates| + |rows| + 1
            && l.candidates <= after.candidates
            && (forall k :: 0 <= k < |rows| ==>
                  var inv := l.invoices[rows[k]];
                  var score := ScoreOf(ranker, a, inv);
                  after.candidates[|l.candidates| + k] == Candidate(a.wireId, inv.id, false, score.raw, score.cal))
            && (|after.candidates| > |l.candidates| + |rows| ==> after.candidates[|l.candidates| + |rows|].isBundle)
            && after.wires == l.wires[a.wireId :=
                 Wire(a.amount, a.receivedOn, a.memo, a.sender, a.payer, r.finalStatus)]
  {
    hide Filter, ThresholdFor, VerdictOn, Candidates, Ingested, Singles, StoredRows, SingleRows, Views, FitsAlone, ScoreOf;
    rows := FitPositions(l, a);
    var kept := Filter(l.invoices, Fits(a));
    ScoredRows(a, ranker, kept);
    var threshold := ThresholdFor(l.trust, a.payer, withTrust, now);
    StoredBundle(l, a, ranker, threshold);
    IngestedTables(l, a, ranker, withTrust, now);
    StoredShape(l, a, ranker, VerdictOn(l, a, ranker, threshold));
  }

  /** The rows that fit, and the singles they give. */
  lemma FitPositions(l: LedgerState, a: Arrival) returns (rows: seq<nat>)
    ensures Rising(rows, |l.invoices|) && |rows| == |Filter(l.invoices, Fits(a))|
    ensures forall k :: 0 <= k < |rows| ==> Filter(l.invoices, Fits(a))[k] == l.invoices[rows[k]]
    ensures forall i: nat :: i < |l.invoices| ==> (i in rows <==> FitsAlone(l.invoices[i], a))
    ensures Singles(l, a) == Views(Filter(l.invoices, Fits(a)))
  {
    hide Filter, Candidates, FitsAlone, Views;
    rows := FilterPositions(l.invoices, Fits(a));
    CandidatesAreFits(l.invoices, a);
    forall i: nat | i < |l.invoices| ensures i in rows <==> FitsAlone(l.invoices[i], a) {
      assert i in rows <==> Fits(a)(l.invoices[i]);
    }
  }

  lemma ScoredRows(a: Arrival, ranker: Ranker, kept: seq<Invoice>)
    ensures var rows := SingleRows(ViewOf(a), Views(kept), ranker);
            && |rows| == |kept| == |Views(kept)|
            && forall k :: 0 <= k < |kept| ==>
                 rows[k] == Candidate(a.wireId, kept[k].id, false, ScoreOf(ranker, a, kept[k]).raw, ScoreOf(ranker, a, kept[k]).cal)
  {
  }

  lemma StoredShape(l: LedgerState, a: Arrival, ranker: Ranker, v: Verdict)
    ensures var rows, stored := SingleRows(ViewOf(a), Singles(l, a), ranker), StoredRows(l, a, ranker, v);
            && rows <= stored && |stored| <= |rows| + 1
            && (|stored| > |rows| ==> (v.PostBundle? || v.ReviewBundle?) && stored[|rows|] == v.row)
  {
    hide Singles, SingleRows;
  }

  lemma IngestedTables(l: LedgerState, a: Arrival, ranker: Ranker, withTrust: bool, now: Time)
    ensures var (after, r) := Ingested(l, a, ranker, withTrust, now);
            && after.candidates
               == l.candidates + StoredRows(l, a, ranker, VerdictOn(l, a, ranker, ThresholdFor(l.trust, a.payer, withTrust, now)))
            && after.wires == l.wires[a.wireId := WireRow(a, r.finalStatus)]
            && r.candidateCount == |Singles(l, a)|
  {
    hide VerdictOn, ThresholdFor, StoredRows, Posted, Rewarded, Singles, Filter;
  }

  lemma StoredBundle(l: LedgerState, a: Arrival, ranker: Ranker, threshold: real)
    requires threshold > 0.0
    ensures var v := VerdictOn(l, a, ranker, threshold);
            v.PostBundle? || v.ReviewBundle? ==> v.row.isBundle
  {
    hide BestOf, BestBundle, Candidates, Views, OpenRows;
    BundleRowIsBundle(l.invoices, ViewOf(a), a.payer, ranker);
  }

  /** The bundler is given exactly the collectable invoices, in table order. */
  lemma BundlerInput(invoices: seq<Invoice>, payer: Option<string>) returns (rows: seq<nat>)
    ensures Rising(rows, |invoices|)
    ensures forall i: nat :: i < |invoices| ==> (i in rows <==> Collectable(invoices[i], payer))
    ensures var entries := Entries(BundleRows(invoices, payer));
            && |entries| == |rows|
            && forall k :: 0 <= k < |rows| ==> entries[k] == (invoices[rows[k]].id, invoices[rows[k]].amount)
  {
    rows := FilterPositions(invoices, ForBundles(payer));
    BundleRowsAreCollectable(invoices, payer);
    hide Filter;
  }

  // ---- Paying together ------------------------------------------------------------------

  function AmountOf(invoices: seq<Invoice>, rows: seq<nat>): int
    requires forall k :: 0 <= k < |rows| ==> rows[k] < |invoices|
  {
    if rows == [] then 0
    else AmountOf(invoices, rows[..|rows| - 1]) + invoices[rows[|rows| - 1]].amount
  }

  /** Collectable invoices among the first `n`. */
  function CollectableBefore(invoices: seq<Invoice>, payer: Option<string>, n: nat): nat
    requires n <= |invoices|
  {
    if n == 0 then 0
    else CollectableBefore(invoices, payer, n - 1) + Ind(Collectable(invoices[n - 1], payer))
  }

  /** Two to five different collectable invoices, all among the first twenty such, whose amounts add
      up to the wire within 1.00. */
  ghost predicate PayTogether(invoices: seq<Invoice>, a: Arrival, rows: seq<nat>) {
    && a.amount > 0 && 2 <= |rows| <= 5 && Rising(rows, |invoices|)
    && (forall k :: 0 <= k < |rows| ==> Collectable(invoices[rows[k]], a.payer))
    && -100 <= AmountOf(invoices, rows) - a.amount <= 100
    && CollectableBefore(invoices, a.payer, rows[|rows| - 1]) < 20
  }

  ghost predicate SomePayTogether(invoices: seq<Invoice>, a: Arrival) {
    exists rows :: PayTogether(invoices, a, rows)
  }

  /** The k-th collectable row has k of them before it. */
  lemma {:induction false} PositionIsCount(invoices: seq<Invoice>, payer: Option<string>, rows: seq<nat>, n: nat, k: nat)
    requires n <= |invoices| && Rising(rows, |invoices|)
    requires forall i: nat :: i < |invoices| ==> (i in rows <==> Collectable(invoices[i], payer))
    requires k <= |rows| && (forall j :: 0 <= j < k ==> rows[j] < n) && (forall j :: k <= j < |rows| ==> rows[j] >= n)
    ensures CollectableBefore(invoices, payer, n) == k
  {
    assert k == 0 || rows[0] < n;
    if n > 0 {
      if Collectable(invoices[n - 1], payer) {
        assert n - 1 in rows;
        var j: nat :| j < |rows| && rows[j] == n - 1;
        var following := if j + 1 < |rows| then rows[j + 1] else n;
        assert following >= n;
        assert j == k - 1;
        PositionIsCount(invoices, payer, rows, n - 1, k - 1);
      } else {
        forall j | 0 <= j < k ensures rows[j] < n - 1 {
          assert rows[j] in rows;
        }
        PositionIsCount(invoices, payer, rows, n - 1, k);
      }
    }
  }

  function Select(rows: seq<nat>, c: Combo): seq<nat>
    requires forall i :: 0 <= i < |c| ==> c[i] < |rows|
  {
    seq(|c|, i requires 0 <= i < |c| => rows[c[i]])
  }

  lemma {:induction false} SelectedAmount(invoices: seq<Invoice>, rows: seq<nat>, entries: seq<Bundler.Entry>, c: Combo)
    requires |entries| == |rows| && forall k :: 0 <= k < |rows| ==> rows[k] < |invoices|
    requires forall k :: 0 <= k < |rows| ==> entries[k].1 == invoices[rows[k]].amount
    requires forall i :: 0 <= i < |c| ==> c[i] < |rows|
    ensures AmountOf(invoices, Select(rows, c)) == Bundler.Total(entries, c)
  {
    if c != [] {
      SelectedAmount(invoices, rows, entries, c[..|c| - 1]);
      assert Select(rows, c)[..|c| - 1] == Select(rows, c[..|c| - 1]);
    }
  }

  lemma ChoicePays(invoices: seq<Invoice>, a: Arrival, rows: seq<nat>, entries: seq<Bundler.Entry>, c: Combo)
    requires Rising(rows, |invoices|) && a.amount > 0 && |entries| == |rows|
    requires forall i: nat :: i < |invoices| ==> (i in rows <==> Collectable(invoices[i], a.payer))
    requires forall k :: 0 <= k < |rows| ==> entries[k] == (invoices[rows[k]].id, invoices[rows[k]].amount)
    requires Increasing(c, 0, |rows|) && 2 <= |c| <= 5
    ensures BundlerLimits.EarlyChoice(entries, a.amount, 100, 5, c) <==> PayTogether(invoices, a, Select(rows, c))
  {
    var chosen := Select(rows, c);
    SelectedAmount(invoices, rows, entries, c);
    var last := c[|c| - 1];
    PositionIsCount(invoices, a.payer, rows, rows[last], last);
    forall k | 0 <= k < |chosen| ensures Collectable(invoices[chosen[k]], a.payer) {
      assert chosen[k] in rows;
    }
    hide Bundler.Total, AmountOf, CollectableBefore;
  }

  /** Rows that are collectable are a selection of the bundler's input. */
  lemma RowsAreSelected(invoices: seq<Invoice>, payer: Option<string>, rows: seq<nat>, chosen: seq<nat>) returns (c: Combo)
    requires Rising(rows, |invoices|) && Rising(chosen, |invoices|)
    requires forall i: nat :: i < |invoices| ==> (i in rows <==> Collectable(invoices[i], payer))
    requires forall k :: 0 <= k < |chosen| ==> Collectable(invoices[chosen[k]], payer)
    ensures Increasing(c, 0, |rows|) && |c| == |chosen| && Select(rows, c) == chosen
  {
    c := [];
    for n := 0 to |chosen|
      invariant |c| == n && forall k :: 0 <= k < n ==> c[k] < |rows| && rows[c[k]] == chosen[k]
    {
      assert chosen[n] in rows;
      var j: nat :| j < |rows| && rows[j] == chosen[n];
      c := c + [j];
    }
    forall i, j | 0 <= i < j < |c| ensures c[i] < c[j] {
      assert rows[c[i]] < rows[c[j]];
    }
  }

  /** The bundler finds something exactly when some collectable invoices pay together. */
  lemma FoundIffPayTogether(invoices: seq<Invoice>, a: Arrival)
    ensures BundlesFor(invoices, a.payer, a.amount) != [] <==> SomePayTogether(invoices, a)
  {
    hide Bundler.Bundles, BundleRows, PayTogether, BundlerLimits.EarlyChoice, BundlerLimits.Choice;
    var entries := Entries(BundleRows(invoices, a.payer));
    var rows := BundlerInput(invoices, a.payer);
    if a.amount > 0 && entries != [] {
      BundlerLimits.FoundIffEarlyChoice(a.amount, entries, 5, 100, 5);
      if BundlesFor(invoices, a.payer, a.amount) != [] {
        var c :| BundlerLimits.EarlyChoice(entries, a.amount, 100, 5, c);
        EarlyChoiceShape(entries, a.amount, c);
        ChoicePays(invoices, a, rows, entries, c);
      }
    } else {
      Bundler.NoBundles(a.amount, entries, 5, 100, 5);
    }
    if SomePayTogether(invoices, a) {
      var chosen :| PayTogether(invoices, a, chosen);
      PayTogetherShape(invoices, a, chosen);
      var c := RowsAreSelected(invoices, a.payer, rows, chosen);
      ChoicePays(invoices, a, rows, entries, c);
      assert c[0] < |entries|;
    }
  }

  lemma EarlyChoiceShape(entries: seq<Bundler.Entry>, target: int, c: Combo)
    requires BundlerLimits.EarlyChoice(entries, target, 100, 5, c)
    ensures Increasing(c, 0, |entries|) && 2 <= |c| <= 5
  {
  }

  lemma PayTogetherShape(invoices: seq<Invoice>, a: Arrival, rows: seq<nat>)
    requires PayTogether(invoices, a, rows)
    ensures a.amount > 0 && 2 <= |rows| <= 5 && Rising(rows, |invoices|)
    ensures forall k :: 0 <= k < |rows| ==> Collectable(invoices[rows[k]], a.payer)
  {
  }

  // ---- The decision ---------------------------------------------------------------------

  /** Some invoice that fits alone reaches the threshold. */
  ghost predicate SomeFitReaches(l: LedgerState, a: Arrival, ranker: Ranker, threshold: real) {
    exists i :: 0 <= i < |l.invoices| && FitsAlone(l.invoices[i], a) && ScoreOf(ranker, a, l.invoices[i]).cal >= threshold
  }

  /** Every open or partly paid invoice the first bundle names reaches the threshold. */
  ghost predicate BundleReaches(l: LedgerState, a: Arrival, ranker: Ranker, threshold: real, ids: seq<string>) {
    forall i :: 0 <= i < |l.invoices| && Collectable(l.invoices[i], None) && l.invoices[i].id in ids
                ==> ScoreOf(ranker, a, l.invoices[i]).cal >= threshold
  }

  lemma GoodSingleInFields(l: LedgerState, a: Arrival, ranker: Ranker, threshold: real)
    ensures GoodSingle(l, a, ranker, threshold) <==> SomeFitReaches(l, a, ranker, threshold)
    ensures Singles(l, a) == [] <==> forall i :: 0 <= i < |l.invoices| ==> !FitsAlone(l.invoices[i], a)
  {
    hide Filter, FitsAlone, Candidates;
    var rows := FitPositions(l, a);
    if GoodSingle(l, a, ranker, threshold) {
      var k :| 0 <= k < |Singles(l, a)| && ranker(ViewOf(a), Singles(l, a)[k]).cal >= threshold;
      assert rows[k] in rows && Fits(a)(l.invoices[rows[k]]);
    }
    if i :| 0 <= i < |l.invoices| && FitsAlone(l.invoices[i], a) && ScoreOf(ranker, a, l.invoices[i]).cal >= threshold {
      assert Fits(a)(l.invoices[i]);
      var k :| 0 <= k < |rows| && rows[k] == i;
      assert ranker(ViewOf(a), Singles(l, a)[k]).cal >= threshold;
    }
    if rows != [] {
      assert rows[0] in rows && Fits(a)(l.invoices[rows[0]]);
    }
    forall i | 0 <= i < |l.invoices| && FitsAlone(l.invoices[i], a) ensures rows != [] {
      assert Fits(a)(l.invoices[i]);
    }
  }

  lemma MembersInFields(l: LedgerState, a: Arrival, ranker: Ranker, threshold: real)
    requires BundlesFor(l.invoices, a.payer, a.amount) != []
    ensures var members := Members(l.invoices, a.payer, a.amount);
            (forall i :: 0 <= i < |members| ==> ranker(ViewOf(a), members[i]).cal >= threshold)
            <==> BundleReaches(l, a, ranker, threshold, BundlesFor(l.invoices, a.payer, a.amount)[0].invoiceIds)
  {
    hide BundlesFor;
    var ids := BundlesFor(l.invoices, a.payer, a.amount)[0].invoiceIds;
    var members := Members(l.invoices, a.payer, a.amount);
    var views := Views(OpenRows(l.invoices));
    var rows := FilterPositions(l.invoices, IsOpenRow);
    var kept := FilterPositions(views, IsMember(ids));
    hide Filter;
    if BundleReaches(l, a, ranker, threshold, ids) {
      forall k | 0 <= k < |members| ensures ranker(ViewOf(a), members[k]).cal >= threshold {
        assert kept[k] in kept && IsMember(ids)(views[kept[k]]);
        var i := rows[kept[k]];
        assert i in rows && IsOpenRow(l.invoices[i]);
        assert members[k] == View(l.invoices[i]) && ScoreOf(ranker, a, l.invoices[i]).cal >= threshold;
      }
    }
    if forall k :: 0 <= k < |members| ==> ranker(ViewOf(a), members[k]).cal >= threshold {
      forall i | 0 <= i < |l.invoices| && Collectable(l.invoices[i], None) && l.invoices[i].id in ids
        ensures ScoreOf(ranker, a, l.invoices[i]).cal >= threshold
      {
        assert IsOpenRow(l.invoices[i]);
        var j: nat :| j < |rows| && rows[j] == i;
        assert IsMember(ids)(views[j]);
        var k: nat :| k < |kept| && kept[k] == j;
        assert members[k] == View(l.invoices[i]);
      }
    }
  }

  /** AUTO_MATCHED and UNMATCHED, in the fields of wire and invoices, for every ranker. */
  lemma DecisionInFields(l: LedgerState, a: Arrival, ranker: Ranker, withTrust: bool, now: Time)
    requires InvoicesOk(l.invoices)
    ensures var (after, r) := Ingested(l, a, ranker, withTrust, now);
            var bundles := BundlesFor(l.invoices, a.payer, a.amount);
            && (bundles != [] <==> SomePayTogether(l.invoices, a))
            && (r.finalStatus == AutoMatched <==>
                  || SomeFitReaches(l, a, ranker, r.threshold)
                  || (bundles != [] && BundleReaches(l, a, ranker, r.threshold, bundles[0].invoiceIds)))
            && (r.finalStatus == Unmatched <==>
                  && (forall i :: 0 <= i < |l.invoices| ==> !FitsAlone(l.invoices[i], a))
                  && !SomePayTogether(l.invoices, a))
  {
    hide BundlesFor, Members, FitsAlone, SomePayTogether, SomeFitReaches, BundleReaches, GoodSingle;
    var r := Ingested(l, a, ranker, withTrust, now).1;
    IngestDecisionExact(l, a, ranker, withTrust, now);
    FoundIffPayTogether(l.invoices, a);
    GoodSingleInFields(l, a, ranker, r.threshold);
    if BundlesFor(l.invoices, a.payer, a.amount) != [] {
      MembersInFields(l, a, ranker, r.threshold);
    }
    hide Ingested, Singles;
  }

  // ---- The answer -----------------------------------------------------------------------

  /** What the answer names when nothing is posted: nothing if UNMATCHED; under review the stored
      bundle with its worst member's score, or else the first best single, or nothing when no
      single scores above zero. */
  lemma ReviewAnswerExact(l: LedgerState, a: Arrival, ranker: Ranker, withTrust: bool, now: Time)
    requires InvoicesOk(l.invoices)
    ensures var (after, r) := Ingested(l, a, ranker, withTrust, now);
            && (r.finalStatus == Unmatched ==> r.bestCandidate == None && r.bestProb == 0.0)
            && (r.finalStatus == UnderReview && BundlesFor(l.invoices, a.payer, a.amount) != [] ==>
                  && r.bestCandidate == Some(|after.candidates| - 1)
                  && after.candidates[|after.candidates| - 1].isBundle
                  && after.candidates[|after.candidates| - 1].prob == r.bestProb < r.threshold)
            && (r.finalStatus == UnderReview && BundlesFor(l.invoices, a.payer, a.amount) == [] ==>
                  && 0.0 <= r.bestProb < r.threshold
                  && (r.bestCandidate.None? ==> r.bestProb == 0.0)
                  && IsFirstBest(after.candidates, |l.candidates|, r.bestCandidate, r.bestProb))
  {
    hide Ingested, VerdictOn, BestOf, BestBundle, Members, BundlesFor, GoodSingle, GoodBundle, Singles, SingleRows,
         ThresholdFor, InvoicesOk, IsFirstBest;
    var threshold := ThresholdFor(l.trust, a.payer, withTrust, now);
    VerdictExact(l, a, ranker, threshold);
    BestBundleFacts(l, a, ranker, threshold);
    IngestedTables(l, a, ranker, withTrust, now);
    ReviewVerdict(l, a, ranker, threshold);
    AnswerOf(l, a, ranker, withTrust, now);
    BestIsFirst(l.candidates, SingleRows(ViewOf(a), Singles(l, a), ranker));
    assert l.candidates + (SingleRows(ViewOf(a), Singles(l, a), ranker) + [])
        == l.candidates + SingleRows(ViewOf(a), Singles(l, a), ranker);
  }

  /** The named row is the first of the highest probability among the rows stored from `base` on;
      none is named only when none of them is above zero. */
  ghost predicate IsFirstBest(rows: seq<Candidate>, base: nat, id: Option<nat>, prob: real) {
    && (id.None? ==> prob <= 0.0)
    && (id.Some? ==>
          && base <= id.value < |rows| && rows[id.value].prob == prob
          && forall k :: base <= k < id.value ==> rows[k].prob < prob)
    && forall k :: base <= k < |rows| ==> rows[k].prob <= prob
  }

  lemma BestIsFirst(before: seq<Candidate>, rows: seq<Candidate>)
    ensures var best := BestOf(rows, |before|);
            best.prob >= 0.0 && (best.id.None? ==> best.prob == 0.0)
            && IsFirstBest(before + rows, |before|, best.id, best.prob)
  {
    var all, best := before + rows, BestOf(rows, |before|);
    forall k | |before| <= k < |all| ensures all[k] == rows[k - |before|] {
    }
    hide BestOf;
  }

  /** What a verdict that posts nothing carries. */
  lemma ReviewVerdict(l: LedgerState, a: Arrival, ranker: Ranker, threshold: real)
    requires threshold > 0.0
    ensures var v := VerdictOn(l, a, ranker, threshold);
            && (v.ReviewBundle? ==> v.row.isBundle && v.row.prob < threshold)
            && (v.ReviewSingles? ==>
                  v.best == BestOf(SingleRows(ViewOf(a), Singles(l, a), ranker), |l.candidates|) && v.best.prob < threshold)
  {
    hide BestOf, BestBundle, Candidates, Views, OpenRows;
    BundleRowIsBundle(l.invoices, ViewOf(a), a.payer, ranker);
  }

  lemma BundleRowIsBundle(invoices: seq<Invoice>, wire: WireView, payer: Option<string>, ranker: Ranker)
    ensures var b := BestBundle(invoices, wire, payer, ranker);
            b.Some? ==> b.value.row.isBundle
  {
    hide BundlesFor, WorstProb, Filter, Join;
  }

  lemma AnswerOf(l: LedgerState, a: Arrival, ranker: Ranker, withTrust: bool, now: Time)
    ensures var (after, r) := Ingested(l, a, ranker, withTrust, now);
            var threshold := ThresholdFor(l.trust, a.payer, withTrust, now);
            var v := VerdictOn(l, a, ranker, threshold);
            && r.threshold == threshold
            && (v.NothingPlausible? <==> r.finalStatus == Unmatched)
            && (v.ReviewBundle? || v.ReviewSingles? <==> r.finalStatus == UnderReview)
            && (v.NothingPlausible? ==> r.bestCandidate == None && r.bestProb == 0.0)
            && (v.ReviewBundle? ==> r.bestCandidate == Some(|after.candidates| - 1) && r.bestProb == v.row.prob)
            && (v.ReviewSingles? ==> r.bestCandidate == v.best.id && r.bestProb == v.best.prob)
  {
    hide VerdictOn, ThresholdFor, Posted, Rewarded, Singles, Filter;
  }
}
