/** Theorems about ingest decisions and about whole runs of ledger operations. */
module LedgerRuns {
  import opened Common
  import opened Features
  import opened IdList
  import opened Combinations
  import opened Ledger
  import opened LedgerInvariant
  import Bundler

  // ---- What ingest scores -------------------------------------------------------------

  /** A plausible single names one open invoice of the resolved payer, and its wire is positive. */
  lemma SingleIsOpenInvoice(l: LedgerState, a: Arrival, k: nat)
    requires k < |Singles(l, a)|
    ensures a.amount > 0
    ensures exists i :: 0 <= i < |l.invoices| && View(l.invoices[i]) == Singles(l, a)[k]
                        && IsOpenRow(l.invoices[i]) && OfScope(a.payer)(l.invoices[i])
  {
    var views := Views(OpenRows(l.invoices));
    FilterMembers(views, IsCandidate(ViewOf(a), a.payer));
    var s := Singles(l, a)[k];
    assert s in Singles(l, a);
    assert s in views && IsCandidate(ViewOf(a), a.payer)(s);
    PlausibleWireIsPositive(ViewOf(a), s);
    var j :| 0 <= j < |views| && views[j] == s;
    FilterMembers(l.invoices, IsOpenRow);
    assert OpenRows(l.invoices)[j] in OpenRows(l.invoices);
    var i :| 0 <= i < |l.invoices| && l.invoices[i] == OpenRows(l.invoices)[j];
  }

  lemma SingleCovered(l: LedgerState, a: Arrival, k: nat)
    requires InvoicesOk(l.invoices) && k < |Singles(l, a)|
    ensures var id := Singles(l, a)[k].invoiceId;
            Split(id) == [id] && Covered(l.invoices, Split(id), a.amount, false)
  {
    SingleIsOpenInvoice(l, a, k);
    var i :| 0 <= i < |l.invoices| && View(l.invoices[i]) == Singles(l, a)[k];
    assert InvoiceOk(l.invoices[i]);
    SplitPiece(l.invoices[i].id);
    OneIdOneOffer(l.invoices, i, a.amount, false);
  }

  /** The bundler's input for a wire, cut to its pool. */
  function PoolFor(invoices: seq<Invoice>, payer: Option<string>): seq<Bundler.Entry> {
    Bundler.Pool(Entries(BundleRows(invoices, payer)))
  }

  lemma FirstBundleChoice(invoices: seq<Invoice>, payer: Option<string>, amount: int) returns (c: Combo)
    requires BundlesFor(invoices, payer, amount) != []
    ensures amount > 0 && 2 <= |c| <= Bundler.MAX_BUNDLE_SIZE && Increasing(c, 0, |PoolFor(invoices, payer)|)
    ensures Bundler.InTolerance(PoolFor(invoices, payer), amount, Bundler.DEFAULT_TOLERANCE, c)
    ensures BundlesFor(invoices, payer, amount)[0].invoiceIds == Bundler.Ids(PoolFor(invoices, payer), c)
  {
    hide Bundler.Bundles, Bundler.Pool, BundleRows;
    var entries := Entries(BundleRows(invoices, payer));
    var pool := PoolFor(invoices, payer);
    var bundle := BundlesFor(invoices, payer, amount)[0];
    Bundler.BundlesSound(amount, entries, Bundler.MAX_BUNDLE_SIZE, Bundler.DEFAULT_TOLERANCE,
                         Bundler.DEFAULT_MAX_RESULTS, bundle);
    c :|
      && 2 <= |c| <= Min(Bundler.MAX_BUNDLE_SIZE, |pool|)
      && Increasing(c, 0, |pool|)
      && Bundler.InTolerance(pool, amount, Bundler.DEFAULT_TOLERANCE, c)
      && bundle == Bundler.BundleOf(pool, amount, c);
  }

  /** The first bundle found: 2 to 5 different open invoices in scope whose amounts add up to
      the wire within 1.00; its stored form splits back into those ids. */
  lemma FirstBundle(invoices: seq<Invoice>, payer: Option<string>, amount: int)
    requires InvoicesOk(invoices) && BundlesFor(invoices, payer, amount) != []
    ensures var ids := BundlesFor(invoices, payer, amount)[0].invoiceIds;
            && Split(Join(ids)) == ids && 2 <= |ids| <= Bundler.MAX_BUNDLE_SIZE
            && Covered(invoices, ids, amount, true)
            && (forall k :: 0 <= k < |ids| ==> OpenInScope(invoices, payer, ids[k]))
  {
    hide BundlesFor, Split, Join, OpenInScope;
    var c := FirstBundleChoice(invoices, payer, amount);
    var pool := PoolFor(invoices, payer);
    BundlePool(invoices, payer);
    hide PoolFor, Listed, PoolDistinct, Backed;
    assert IdsDistinct(invoices);
    BundleOffersTotal(invoices, pool, c, amount);
    BundleIdsBacked(invoices, payer, pool, c);
    SplitJoin(Bundler.Ids(pool, c));
  }

  /** The invoices whose scores decide about a bundle. */
  function Members(invoices: seq<Invoice>, payer: Option<string>, amount: int): seq<InvoiceView> {
    var bundles := BundlesFor(invoices, payer, amount);
    if bundles == [] then [] else Filter(Views(OpenRows(invoices)), IsMember(bundles[0].invoiceIds))
  }

  lemma FirstBundleHasMembers(invoices: seq<Invoice>, payer: Option<string>, amount: int)
    requires InvoicesOk(invoices) && BundlesFor(invoices, payer, amount) != []
    ensures Members(invoices, payer, amount) != []
  {
    hide InvoicesOk, BundlesFor, Split, Join, Covered, OpenInScope;
    FirstBundle(invoices, payer, amount);
    var ids := BundlesFor(invoices, payer, amount)[0].invoiceIds;
    assert OpenInScope(invoices, payer, ids[0]);
    OpenIsMember(invoices, payer, ids);
  }

  lemma OpenIsMember(invoices: seq<Invoice>, payer: Option<string>, ids: seq<string>)
    requires ids != [] && OpenInScope(invoices, payer, ids[0])
    ensures Filter(Views(OpenRows(invoices)), IsMember(ids)) != []
  {
    hide Filter;
    var i :| 0 <= i < |invoices| && invoices[i].id == ids[0] && IsOpenRow(invoices[i]) && OfScope(payer)(invoices[i]);
    FilterMembers(invoices, IsOpenRow);
    assert invoices[i] in OpenRows(invoices);
    var j :| 0 <= j < |OpenRows(invoices)| && OpenRows(invoices)[j] == invoices[i];
    var views := Views(OpenRows(invoices));
    assert views[j] in views && IsMember(ids)(views[j]);
    FilterMembers(views, IsMember(ids));
  }

  /** A bundle is scored exactly when the bundler finds one, and with its worst member. */
  lemma BestBundleFacts(l: LedgerState, a: Arrival, ranker: Ranker, threshold: real)
    requires InvoicesOk(l.invoices)
    ensures var found := BestBundle(l.invoices, ViewOf(a), a.payer, ranker);
            var members := Members(l.invoices, a.payer, a.amount);
            && (found.Some? <==> BundlesFor(l.invoices, a.payer, a.amount) != [])
            && (found.Some? ==>
                  var b := found.value;
                  && b.row.isBundle && b.row.wireId == a.wireId && b.row.invoiceIds == Join(b.ids)
                  && b.ids == BundlesFor(l.invoices, a.payer, a.amount)[0].invoiceIds
                  && (b.row.prob >= threshold <==>
                        forall i :: 0 <= i < |members| ==> ranker(ViewOf(a), members[i]).cal >= threshold))
  {
    if BundlesFor(l.invoices, a.payer, a.amount) != [] {
      FirstBundleHasMembers(l.invoices, a.payer, a.amount);
    }
  }

  ghost predicate OpenInScope(invoices: seq<Invoice>, payer: Option<string>, id: string) {
    exists i :: 0 <= i < |invoices| && invoices[i].id == id && IsOpenRow(invoices[i]) && OfScope(payer)(invoices[i])
  }

  lemma BundleIdsBacked(invoices: seq<Invoice>, payer: Option<string>, pool: seq<Bundler.Entry>, c: Combo)
    requires InvoicesOk(invoices) && Increasing(c, 0, |pool|)
    requires forall j :: 0 <= j < |pool| ==> Backed(invoices, payer, pool[j])
    ensures var ids := Bundler.Ids(pool, c);
            forall k :: 0 <= k < |ids| ==> CommaFree(ids[k]) && OpenInScope(invoices, payer, ids[k])
  {
    var ids := Bundler.Ids(pool, c);
    forall k | 0 <= k < |ids| ensures CommaFree(ids[k]) && OpenInScope(invoices, payer, ids[k]) {
      assert Backed(invoices, payer, pool[c[k]]);
      var i :| 0 <= i < |invoices| && invoices[i].id == pool[c[k]].0 && invoices[i].amount == pool[c[k]].1
               && IsOpenRow(invoices[i]) && OfScope(payer)(invoices[i]);
      assert InvoiceOk(invoices[i]);
    }
  }

  // ---- The decision -------------------------------------------------------------------

  ghost predicate GoodSingle(l: LedgerState, a: Arrival, ranker: Ranker, threshold: real) {
    exists k :: 0 <= k < |Singles(l, a)| && ranker(ViewOf(a), Singles(l, a)[k]).cal >= threshold
  }

  ghost predicate GoodBundle(l: LedgerState, a: Arrival, ranker: Ranker, threshold: real) {
    && BundlesFor(l.invoices, a.payer, a.amount) != []
    && var members := Members(l.invoices, a.payer, a.amount);
       forall i :: 0 <= i < |members| ==> ranker(ViewOf(a), members[i]).cal >= threshold
  }

  lemma BestReaches(l: LedgerState, a: Arrival, ranker: Ranker, threshold: real)
    requires threshold > 0.0
    ensures BestOf(SingleRows(ViewOf(a), Singles(l, a), ranker), |l.candidates|).prob >= threshold
            <==> GoodSingle(l, a, ranker, threshold)
  {
    var rows := SingleRows(ViewOf(a), Singles(l, a), ranker);
    var best := BestOf(rows, |l.candidates|);
    forall k | 0 <= k < |rows| ensures rows[k].prob == ranker(ViewOf(a), Singles(l, a)[k]).cal {
    }
    if best.prob >= threshold {
      var k := best.id.value - |l.candidates|;
      assert ranker(ViewOf(a), Singles(l, a)[k]).cal >= threshold;
    }
  }

  /** The verdict said declaratively, for every ranker and any positive threshold. */
  lemma VerdictExact(l: LedgerState, a: Arrival, ranker: Ranker, threshold: real)
    requires InvoicesOk(l.invoices) && threshold > 0.0
    ensures var v := VerdictOn(l, a, ranker, threshold);
            var good, goodBundle := GoodSingle(l, a, ranker, threshold), GoodBundle(l, a, ranker, threshold);
            var found := BundlesFor(l.invoices, a.payer, a.amount) != [];
            && (v.PostSingle? <==> good)
            && (v.PostBundle? <==> !good && goodBundle)
            && (v.ReviewBundle? <==> !good && found && !goodBundle)
            && (v.ReviewSingles? <==> !good && !found && Singles(l, a) != [])
            && (v.NothingPlausible? <==> !found && Singles(l, a) == [])
  {
    BestReaches(l, a, ranker, threshold);
    BestBundleFacts(l, a, ranker, threshold);
    hide BestOf, BestBundle, Members, BundlesFor;
  }

  /** The stored status is the one reported, the threshold is in [0.88, 0.97], a wire is
      auto-matched exactly when one single or every member of the first bundle reaches the
      threshold, and left unmatched exactly when there is neither a single nor a bundle. */
  lemma IngestDecisionExact(l: LedgerState, a: Arrival, ranker: Ranker, withTrust: bool, now: Time)
    requires InvoicesOk(l.invoices)
    ensures var (after, r) := Ingested(l, a, ranker, withTrust, now);
            && a.wireId in after.wires && after.wires[a.wireId] == WireRow(a, r.finalStatus)
            && 0.88 <= r.threshold <= 0.97
            && (r.finalStatus == AutoMatched <==>
                  GoodSingle(l, a, ranker, r.threshold) || GoodBundle(l, a, ranker, r.threshold))
            && (r.finalStatus == Unmatched <==>
                  Singles(l, a) == [] && BundlesFor(l.invoices, a.payer, a.amount) == [])
            && (r.finalStatus == AutoMatched || r.finalStatus == UnderReview || r.finalStatus == Unmatched)
            && r.candidateCount == |Singles(l, a)|
  {
    var threshold := ThresholdFor(l.trust, a.payer, withTrust, now);
    VerdictExact(l, a, ranker, threshold);
    hide VerdictOn, GoodSingle, GoodBundle, BundlesFor, Posted, Singles, ThresholdFor;
  }

  /** `m` is the match for candidate `c` of arrival `a`, and posting it is what happened. */
  ghost predicate PostedAs(l: LedgerState, after: LedgerState, a: Arrival, c: Candidate) {
    && c.wireId == a.wireId
    && after.matches == l.matches + [Match(a.wireId, c.invoiceIds, c.isBundle, c.prob, AutoPosted, "auto")]
    && after.invoices == Posted(l.invoices, Split(c.invoiceIds), a.amount, c.isBundle)
    && (forall k :: 0 <= k < |Split(c.invoiceIds)| ==> OpenInScope(l.invoices, a.payer, Split(c.invoiceIds)[k]))
  }

  /** An automatic match adds exactly one row, at or above the threshold, naming the reported
      candidate's invoices, every one of them open and in the resolved payer's scope; any
      other outcome posts nothing. */
  lemma AutoMatchIsJustified(l: LedgerState, a: Arrival, ranker: Ranker, withTrust: bool, now: Time)
    requires InvoicesOk(l.invoices)
    ensures var (after, r) := Ingested(l, a, ranker, withTrust, now);
            if r.finalStatus == AutoMatched then
              && r.bestCandidate.Some? && |l.candidates| <= r.bestCandidate.value < |after.candidates|
              && after.candidates[r.bestCandidate.value].prob == r.bestProb >= r.threshold
              && PostedAs(l, after, a, after.candidates[r.bestCandidate.value])
            else after.matches == l.matches && after.invoices == l.invoices && after.trust == l.trust
  {
    var threshold := ThresholdFor(l.trust, a.payer, withTrust, now);
    var v := VerdictOn(l, a, ranker, threshold);
    if v.PostSingle? {
      SingleJustified(l, a, ranker, withTrust, now);
    } else if v.PostBundle? {
      BundleJustified(l, a, ranker, withTrust, now);
    }
    hide VerdictOn, Posted, PostedAs, BundlesFor, ThresholdFor, Rewarded, Split, Singles, BestOf;
  }

  lemma SingleJustified(l: LedgerState, a: Arrival, ranker: Ranker, withTrust: bool, now: Time)
    requires InvoicesOk(l.invoices)
    requires VerdictOn(l, a, ranker, ThresholdFor(l.trust, a.payer, withTrust, now)).PostSingle?
    ensures var (after, r) := Ingested(l, a, ranker, withTrust, now);
            && r.bestCandidate.Some? && |l.candidates| <= r.bestCandidate.value < |after.candidates|
            && after.candidates[r.bestCandidate.value].prob == r.bestProb >= r.threshold
            && PostedAs(l, after, a, after.candidates[r.bestCandidate.value])
  {
    var v := VerdictOn(l, a, ranker, ThresholdFor(l.trust, a.payer, withTrust, now));
    var after := Ingested(l, a, ranker, withTrust, now).0;
    var k := v.best.id.value - |l.candidates|;
    SinglePosted(l, a, k);
    hide ThresholdFor, Rewarded, Split, Singles, OpenInScope, Posted, InvoicesOk, BestBundle;
    var c := after.candidates[v.best.id.value];
    assert c == SingleRow(ViewOf(a), Singles(l, a)[k], ranker);
  }

  lemma BundleJustified(l: LedgerState, a: Arrival, ranker: Ranker, withTrust: bool, now: Time)
    requires InvoicesOk(l.invoices)
    requires VerdictOn(l, a, ranker, ThresholdFor(l.trust, a.payer, withTrust, now)).PostBundle?
    ensures var (after, r) := Ingested(l, a, ranker, withTrust, now);
            && r.bestCandidate.Some? && |l.candidates| <= r.bestCandidate.value < |after.candidates|
            && after.candidates[r.bestCandidate.value].prob == r.bestProb >= r.threshold
            && PostedAs(l, after, a, after.candidates[r.bestCandidate.value])
  {
    hide InvoicesOk, VerdictOn, ThresholdFor, Rewarded, Split, Singles, OpenInScope, Posted;
    PostedBundle(l, a, ranker, ThresholdFor(l.trust, a.payer, withTrust, now));
  }

  lemma PostedBundle(l: LedgerState, a: Arrival, ranker: Ranker, threshold: real)
    requires InvoicesOk(l.invoices) && threshold > 0.0 && VerdictOn(l, a, ranker, threshold).PostBundle?
    ensures var v := VerdictOn(l, a, ranker, threshold);
            && v.row.isBundle && v.row.wireId == a.wireId && v.row.prob >= threshold
            && Split(v.row.invoiceIds) == v.ids
            && (forall k :: 0 <= k < |v.ids| ==> OpenInScope(l.invoices, a.payer, v.ids[k]))
  {
    BestBundleFacts(l, a, ranker, threshold);
    FirstBundle(l.invoices, a.payer, a.amount);
    hide BestBundle, BundlesFor, Split, Join, OpenInScope, Covered;
  }

  lemma SinglePosted(l: LedgerState, a: Arrival, k: nat)
    requires InvoicesOk(l.invoices) && k < |Singles(l, a)|
    ensures var id := Singles(l, a)[k].invoiceId;
            Split(id) == [id] && OpenInScope(l.invoices, a.payer, id)
  {
    SingleIsOpenInvoice(l, a, k);
    var i :| 0 <= i < |l.invoices| && View(l.invoices[i]) == Singles(l, a)[k]
             && IsOpenRow(l.invoices[i]) && OfScope(a.payer)(l.invoices[i]);
    assert InvoiceOk(l.invoices[i]);
    SplitPiece(l.invoices[i].id);
  }
}
