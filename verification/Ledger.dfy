/** Wire reconciliation: ingest decides what a wire pays, reviewers confirm, override or reject.
    Money is integer cents. A wire id is fresh at ingest; the ranker is any function. */
module Ledger {
  import opened Common
  import opened Features
  import opened IdList
  import Bundler
  import TE = TrustEngine
  import TrustDecay

  datatype InvoiceStatus = Open | Partial | Paid | WrittenOff

  datatype Invoice = Invoice(
    id: string, payer: string, amount: int, dueDate: int, status: InvoiceStatus, amountPaid: int)

  datatype WireStatus = Pending | AutoMatched | UnderReview | Matched | Unmatched | Rejected

  datatype Wire = Wire(
    amount: int, receivedOn: int, memo: string, sender: string,
    resolvedPayer: Option<string>, status: WireStatus)

  datatype Candidate = Candidate(wireId: string, invoiceIds: string, isBundle: bool, rawScore: real, prob: real)

  datatype MatchOutcome = AutoPosted | HumanConfirmed | HumanOverride

  datatype Match = Match(
    wireId: string, invoiceIds: string, isBundle: bool, confidence: real, outcome: MatchOutcome, reviewer: string)

  datatype ReviewDecision = ReviewDecision(
    wireId: string, candidateId: Option<int>, action: string, note: string, reviewer: string)

  /** Candidate and match ids are row numbers; invoices have a fixed table order. */
  datatype LedgerState = LedgerState(
    invoices: seq<Invoice>,
    wires: map<string, Wire>,
    candidates: seq<Candidate>,
    matches: seq<Match>,
    decisions: seq<ReviewDecision>,
    trust: TE.TrustStore)

  datatype Score = Score(raw: real, cal: real)

  type Ranker = (WireView, InvoiceView) -> Score

  // ---- Posting ------------------------------------------------------------------------

  function Credit(inv: Invoice, wireAmount: int, isBundle: bool): int {
    if isBundle then inv.amount else wireAmount
  }

  function Credited(inv: Invoice, wireAmount: int, isBundle: bool): Invoice {
    var newPaid := Min(inv.amountPaid + Credit(inv, wireAmount, isBundle), inv.amount);
    inv.(amountPaid := newPaid, status := if newPaid == inv.amount then Paid else Partial)
  }

  function Posted(invoices: seq<Invoice>, ids: seq<string>, wireAmount: int, isBundle: bool): seq<Invoice> {
    seq(|invoices|, i requires 0 <= i < |invoices| =>
      if invoices[i].id in ids then Credited(invoices[i], wireAmount, isBundle) else invoices[i])
  }

  // ---- Ingest -------------------------------------------------------------------------

  predicate IsOpenRow(inv: Invoice) {
    inv.status == Open || inv.status == Partial
  }

  function View(inv: Invoice): InvoiceView {
    InvoiceView(inv.id, inv.payer, inv.amount, inv.dueDate)
  }

  function Views(rows: seq<Invoice>): seq<InvoiceView> {
    seq(|rows|, i requires 0 <= i < |rows| => View(rows[i]))
  }

  function OpenRows(invoices: seq<Invoice>): seq<Invoice> {
    Filter(invoices, IsOpenRow)
  }

  function OfScope(payer: Option<string>): Invoice -> bool {
    (inv: Invoice) => payer.Some? ==> inv.payer == payer.value
  }

  function Entries(rows: seq<Invoice>): seq<Bundler.Entry> {
    seq(|rows|, i requires 0 <= i < |rows| => (rows[i].id, rows[i].amount))
  }

  /** The rows the bundler may combine: open and, if the payer is known, of that payer. */
  function BundleRows(invoices: seq<Invoice>, payer: Option<string>): seq<Invoice> {
    Filter(OpenRows(invoices), OfScope(payer))
  }

  function BundlesFor(invoices: seq<Invoice>, payer: Option<string>, amount: int): seq<Bundler.Bundle> {
    Bundler.Bundles(amount, Entries(BundleRows(invoices, payer)),
                    Bundler.MAX_BUNDLE_SIZE, Bundler.DEFAULT_TOLERANCE, Bundler.DEFAULT_MAX_RESULTS)
  }

  function SingleRow(wire: WireView, inv: InvoiceView, ranker: Ranker): Candidate {
    var s := ranker(wire, inv);
    Candidate(wire.wireId, inv.invoiceId, false, s.raw, s.cal)
  }

  function SingleRows(wire: WireView, singles: seq<InvoiceView>, ranker: Ranker): seq<Candidate> {
    seq(|singles|, i requires 0 <= i < |singles| => SingleRow(wire, singles[i], ranker))
  }

  /** Best probability so far and the candidate that had it, starting from 0 and nobody. */
  datatype Best = Best(prob: real, id: Option<nat>)

  /** Row `k` has this probability and every row before it a lower one. */
  predicate FirstMaximum(rows: seq<Candidate>, k: nat, prob: real) {
    k < |rows| && rows[k].prob == prob && forall i :: 0 <= i < k ==> rows[i].prob < prob
  }

  /** First strictly best row; row `i` of `rows` has candidate id `base + i`. */
  function BestOf(rows: seq<Candidate>, base: nat): (r: Best)
    ensures r.prob >= 0.0
    ensures r.prob > 0.0 ==> r.id.Some?
    ensures r.id.Some? ==> base <= r.id.value < base + |rows| && FirstMaximum(rows, r.id.value - base, r.prob)
    ensures forall i :: 0 <= i < |rows| ==> rows[i].prob <= r.prob
  {
    if rows == [] then Best(0.0, None)
    else
      var n := |rows| - 1;
      var best := BestOf(rows[..n], base);
      if rows[n].prob > best.prob then Best(rows[n].prob, Some(base + n)) else best
  }

  function IsMember(ids: seq<string>): InvoiceView -> bool {
    (inv: InvoiceView) => inv.invoiceId in ids
  }

  /** Lowest calibrated probability over the members of a bundle. */
  function WorstProb(wire: WireView, members: seq<InvoiceView>, ranker: Ranker): (r: real)
    requires members != []
    ensures forall i :: 0 <= i < |members| ==> r <= ranker(wire, members[i]).cal
    ensures exists i :: 0 <= i < |members| && r == ranker(wire, members[i]).cal
  {
    var n := |members| - 1;
    var last := ranker(wire, members[n]).cal;
    if n == 0 then last
    else
      var rest := WorstProb(wire, members[..n], ranker);
      if last < rest then last else rest
  }

  /** What ingest concludes before anything is posted. */
  datatype Verdict =
    | PostSingle(best: Best)
    | PostBundle(row: Candidate, ids: seq<string>)
    | ReviewBundle(row: Candidate)
    | ReviewSingles(best: Best)
    | NothingPlausible

  /** The best bundle, scored by its worst member. */
  datatype ScoredBundle = ScoredBundle(row: Candidate, ids: seq<string>)

  function BestBundle(invoices: seq<Invoice>, wire: WireView, payer: Option<string>, ranker: Ranker): Option<ScoredBundle> {
    var bundles := BundlesFor(invoices, payer, wire.amount);
    if bundles == [] then None
    else
      var ids := bundles[0].invoiceIds;
      var members := Filter(Views(OpenRows(invoices)), IsMember(ids));
      if members == [] then None
      else
        var prob := WorstProb(wire, members, ranker);
        Some(ScoredBundle(Candidate(wire.wireId, Join(ids), true, prob, prob), ids))
  }

  function Decide(invoices: seq<Invoice>, base: nat, wire: WireView, payer: Option<string>,
                  ranker: Ranker, threshold: real): Verdict
    requires threshold > 0.0
  {
    var singles := Candidates(wire, Views(OpenRows(invoices)), payer);
    var best := BestOf(SingleRows(wire, singles, ranker), base);
    if best.prob >= threshold then PostSingle(best)
    else
      var bundle := BestBundle(invoices, wire, payer, ranker);
      if bundle.Some? then
        if bundle.value.row.prob >= threshold then PostBundle(bundle.value.row, bundle.value.ids)
        else ReviewBundle(bundle.value.row)
      else if singles != [] then ReviewSingles(best)
      else NothingPlausible
  }

  /** A payer id that is missing or empty is falsy in the source. */
  predicate Known(payer: Option<string>) {
    payer.Some? && payer.value != ""
  }

  function ThresholdFor(trust: TE.TrustStore, payer: Option<string>, withTrust: bool, now: Time): (r: real)
    ensures 0.88 <= r <= 0.97
    ensures withTrust && Known(payer) ==>
              r == RMax(0.88, RMin(0.97, 1.03 - 0.2 * TrustDecay.GetTrust(trust, payer.value, now)))
    ensures !(withTrust && Known(payer)) ==> r == 0.93
  {
    var score := if withTrust && Known(payer) then TrustDecay.GetTrust(trust, payer.value, now) else 0.5;
    TrustDecay.ThresholdClosedForm(score);
    TrustDecay.ThresholdForTrust(score)
  }

  function Rewarded(trust: TE.TrustStore, payer: Option<string>, kind: TE.EventKind, withTrust: bool, now: Time): TE.TrustStore {
    if withTrust && Known(payer) then TE.Updated(trust, payer.value, kind, now) else trust
  }

  datatype IngestResult = IngestResult(
    finalStatus: WireStatus,
    bestCandidate: Option<nat>,
    bestProb: real,
    threshold: real,
    candidateCount: nat)

  /** A wire as it arrives, with what entity resolution made of it. */
  datatype Arrival = Arrival(wireId: string, amount: int, receivedOn: int, memo: string, sender: string, payer: Option<string>)

  function ViewOf(a: Arrival): WireView {
    WireView(a.wireId, a.amount, a.receivedOn, a.memo, a.sender)
  }

  function WireRow(a: Arrival, status: WireStatus): Wire {
    Wire(a.amount, a.receivedOn, a.memo, a.sender, a.payer, status)
  }

  function Singles(l: LedgerState, a: Arrival): seq<InvoiceView> {
    Candidates(ViewOf(a), Views(OpenRows(l.invoices)), a.payer)
  }

  function AutoMatch(a: Arrival, c: Candidate): Match {
    Match(a.wireId, c.invoiceIds, c.isBundle, c.prob, AutoPosted, "auto")
  }

  /** Candidates stored for a wire: one row per single, then the bundle if one was scored. */
  function StoredRows(l: LedgerState, a: Arrival, ranker: Ranker, v: Verdict): seq<Candidate> {
    SingleRows(ViewOf(a), Singles(l, a), ranker)
    + (if v.PostBundle? || v.ReviewBundle? then [v.row] else [])
  }

  function VerdictOn(l: LedgerState, a: Arrival, ranker: Ranker, threshold: real): (v: Verdict)
    requires threshold > 0.0
    ensures v.PostSingle? ==>
              && v.best.id.Some?
              && |l.candidates| <= v.best.id.value < |l.candidates| + |Singles(l, a)|
  {
    Decide(l.invoices, |l.candidates|, ViewOf(a), a.payer, ranker, threshold)
  }

  /** Tables and answer once the verdict is known and the scored rows are stored. */
  function Settled(l: LedgerState, a: Arrival, v: Verdict, rewarded: TE.TrustStore, threshold: real, count: nat)
    : (LedgerState, IngestResult)
    requires v.PostSingle? ==> v.best.id.Some? && v.best.id.value < |l.candidates|
    requires v.PostBundle? || v.ReviewBundle? ==> l.candidates != []
  {
    match v
    case PostSingle(best) =>
      var c := l.candidates[best.id.value];
      (LedgerState(Posted(l.invoices, Split(c.invoiceIds), a.amount, false), l.wires[a.wireId := WireRow(a, AutoMatched)],
                   l.candidates, l.matches + [AutoMatch(a, c)], l.decisions, rewarded),
       IngestResult(AutoMatched, best.id, best.prob, threshold, count))
    case PostBundle(row, ids) =>
      (LedgerState(Posted(l.invoices, ids, a.amount, true), l.wires[a.wireId := WireRow(a, AutoMatched)],
                   l.candidates, l.matches + [AutoMatch(a, row)], l.decisions, rewarded),
       IngestResult(AutoMatched, Some(|l.candidates| - 1), row.prob, threshold, count))
    case ReviewBundle(row) =>
      (l.(wires := l.wires[a.wireId := WireRow(a, UnderReview)]),
       IngestResult(UnderReview, Some(|l.candidates| - 1), row.prob, threshold, count))
    case ReviewSingles(best) =>
      (l.(wires := l.wires[a.wireId := WireRow(a, UnderReview)]),
       IngestResult(UnderReview, best.id, best.prob, threshold, count))
    case NothingPlausible =>
      (l.(wires := l.wires[a.wireId := WireRow(a, Unmatched)]),
       IngestResult(Unmatched, None, 0.0, threshold, count))
  }

  function Ingested(l: LedgerState, a: Arrival, ranker: Ranker, withTrust: bool, now: Time): (LedgerState, IngestResult) {
    var threshold := ThresholdFor(l.trust, a.payer, withTrust, now);
    var v := VerdictOn(l, a, ranker, threshold);
    var stored := l.(candidates := l.candidates + StoredRows(l, a, ranker, v));
    Settled(stored, a, v, Rewarded(l.trust, a.payer, TE.AutoMatched, withTrust, now), threshold, |Singles(l, a)|)
  }

  // ---- Review actions -----------------------------------------------------------------

  datatype Review = Review(reviewer: string, note: string)

  predicate CanConfirm(l: LedgerState, wireId: string, candidateId: int) {
    && wireId in l.wires
    && 0 <= candidateId < |l.candidates| && l.candidates[candidateId].wireId == wireId
  }

  function Confirmed(l: LedgerState, wireId: string, candidateId: int, review: Review, withTrust: bool, now: Time): LedgerState
    requires CanConfirm(l, wireId, candidateId)
  {
    var wire, c := l.wires[wireId], l.candidates[candidateId];
    var wasAuto := wire.status == AutoMatched;
    var m := Match(wireId, c.invoiceIds, c.isBundle, c.prob, if wasAuto then AutoPosted else HumanConfirmed, review.reviewer);
    l.(invoices := if wasAuto then l.invoices
                   else Posted(l.invoices, Split(c.invoiceIds), wire.amount, c.isBundle),
       wires := l.wires[wireId := wire.(status := Matched)],
       matches := l.matches + [m],
       decisions := l.decisions + [ReviewDecision(wireId, Some(candidateId), "confirm", review.note, review.reviewer)],
       trust := if wasAuto then l.trust else Rewarded(l.trust, wire.resolvedPayer, TE.AutoMatched, withTrust, now))
  }

  function Overridden(l: LedgerState, wireId: string, ids: seq<string>, review: Review, withTrust: bool, now: Time): LedgerState
    requires wireId in l.wires
  {
    var wire := l.wires[wireId];
    l.(wires := l.wires[wireId := wire.(status := Matched)],
       matches := l.matches + [Match(wireId, Join(ids), |ids| > 1, 0.0, HumanOverride, review.reviewer)],
       decisions := l.decisions + [ReviewDecision(wireId, None, "override", review.note, review.reviewer)],
       trust := Rewarded(l.trust, wire.resolvedPayer, TE.HumanOverride, withTrust, now))
  }

  function Rejecting(l: LedgerState, wireId: string, review: Review): LedgerState
    requires wireId in l.wires
  {
    l.(wires := l.wires[wireId := l.wires[wireId].(status := Rejected)],
       decisions := l.decisions + [ReviewDecision(wireId, None, "reject", review.note, review.reviewer)])
  }
}
