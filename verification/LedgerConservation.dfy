/** Runs of ingest, confirm, override and reject: bounds, monotonicity and conservation of cash. */
module LedgerConservation {
  import opened Common
  import opened Features
  import opened IdList
  import opened Ledger
  import opened LedgerInvariant
  import opened LedgerRuns
  import TE = TrustEngine

  datatype Op =
    | Ingest(arrival: Arrival, ranker: Ranker, withTrust: bool, now: Time)
    | Confirm(wireId: string, candidateId: int, review: Review, withTrust: bool, now: Time)
    | Override(wireId: string, ids: seq<string>, review: Review, withTrust: bool, now: Time)
    | Reject(wireId: string, review: Review)

  /** A call the service refuses leaves the tables alone. */
  function Next(l: LedgerState, op: Op): LedgerState {
    match op
    case Ingest(a, ranker, withTrust, now) =>
      if a.wireId in l.wires then l else Ingested(l, a, ranker, withTrust, now).0
    case Confirm(wireId, candidateId, review, withTrust, now) =>
      if CanConfirm(l, wireId, candidateId) then Confirmed(l, wireId, candidateId, review, withTrust, now) else l
    case Override(wireId, ids, review, withTrust, now) =>
      if wireId in l.wires then Overridden(l, wireId, ids, review, withTrust, now) else l
    case Reject(wireId, review) =>
      if wireId in l.wires then Rejecting(l, wireId, review) else l
  }

  function Run(l: LedgerState, ops: seq<Op>): LedgerState
    decreases |ops|
  {
    if |ops| == 0 then l else Run(Next(l, ops[0]), ops[1..])
  }

  /** One application of a wire's cash to invoices. */
  datatype Posting = Posting(wireAmount: int, isBundle: bool)

  /** What the operation posts, if anything: the ingest verdict, or a confirmation of a wire
      that is not currently auto-matched. Override and reject post nothing. */
  function PostingOf(l: LedgerState, op: Op): Option<Posting> {
    match op
    case Ingest(a, ranker, withTrust, now) =>
      if a.wireId in l.wires then None
      else
        var v := VerdictOn(l, a, ranker, ThresholdFor(l.trust, a.payer, withTrust, now));
        if v.PostSingle? then Some(Posting(a.amount, false))
        else if v.PostBundle? then Some(Posting(a.amount, true))
        else None
    case Confirm(wireId, candidateId, _, _, _) =>
      if CanConfirm(l, wireId, candidateId) && l.wires[wireId].status != AutoMatched
      then Some(Posting(l.wires[wireId].amount, l.candidates[candidateId].isBundle))
      else None
    case Override(_, _, _, _, _) => None
    case Reject(_, _) => None
  }

  /** The most a posting may move: the wire, plus 1.00 for a bundle. */
  function Allowance(p: Option<Posting>): int {
    if p.None? then 0 else p.value.wireAmount + Slack(p.value.isBundle)
  }

  /** The step relation the theorems are about. */
  ghost predicate SafeStep(l: LedgerState, after: LedgerState, p: Option<Posting>) {
    && Inv(after)
    && LaterInvoices(l.invoices, after.invoices)
    && 0 <= TotalPaid(after.invoices) - TotalPaid(l.invoices) <= Allowance(p)
    && (p.None? ==> after.invoices == l.invoices)
    && (p.Some? ==> p.value.wireAmount > 0)
  }

  // ---- Candidates stay covered --------------------------------------------------------

  /** Old candidates keep their cover when invoices evolve and wires keep their amounts. */
  lemma CandidatesKept(l: LedgerState, invoices: seq<Invoice>, wires: map<string, Wire>)
    requires Inv(l) && LaterInvoices(l.invoices, invoices)
    requires forall k :: k in l.wires ==> k in wires && wires[k].amount == l.wires[k].amount
    ensures forall i :: 0 <= i < |l.candidates| ==>
              CandidateOk(l.(invoices := invoices, wires := wires), l.candidates[i])
  {
    forall i | 0 <= i < |l.candidates|
      ensures CandidateOk(l.(invoices := invoices, wires := wires), l.candidates[i])
    {
      var c := l.candidates[i];
      assert CandidateOk(l, c);
      CoveredLater(l.invoices, invoices, Split(c.invoiceIds), l.wires[c.wireId].amount, c.isBundle);
    }
  }

  lemma LaterReflexive(invoices: seq<Invoice>)
    requires InvoicesOk(invoices)
    ensures LaterInvoices(invoices, invoices)
  {
    forall i | 0 <= i < |invoices| ensures LaterInvoice(invoices[i], invoices[i]) {
      assert InvoiceOk(invoices[i]);
    }
  }

  /** Everything ingest stores for the arriving wire is covered by it. */
  lemma StoredAreCovered(l: LedgerState, a: Arrival, ranker: Ranker, threshold: real)
    requires InvoicesOk(l.invoices) && threshold > 0.0
    ensures var v := VerdictOn(l, a, ranker, threshold);
            forall c :: c in StoredRows(l, a, ranker, v) ==>
              c.wireId == a.wireId && Covered(l.invoices, Split(c.invoiceIds), a.amount, c.isBundle)
  {
    var v := VerdictOn(l, a, ranker, threshold);
    var rows := StoredRows(l, a, ranker, v);
    var n := |Singles(l, a)|;
    if v.PostBundle? || v.ReviewBundle? {
      BundleRowCovered(l, a, ranker, threshold);
    }
    forall c | c in rows ensures c.wireId == a.wireId && Covered(l.invoices, Split(c.invoiceIds), a.amount, c.isBundle) {
      var i :| 0 <= i < |rows| && rows[i] == c;
      if i < n {
        SingleCovered(l, a, i);
      }
    }
  }

  lemma BundleRowCovered(l: LedgerState, a: Arrival, ranker: Ranker, threshold: real)
    requires InvoicesOk(l.invoices) && threshold > 0.0
    requires VerdictOn(l, a, ranker, threshold).PostBundle? || VerdictOn(l, a, ranker, threshold).ReviewBundle?
    ensures var v := VerdictOn(l, a, ranker, threshold);
            && v.row.wireId == a.wireId && v.row.isBundle
            && Covered(l.invoices, Split(v.row.invoiceIds), a.amount, true)
            && (v.PostBundle? ==> v.ids == Split(v.row.invoiceIds))
  {
    VerdictUsesBestBundle(l, a, ranker, threshold);
    BestBundleFacts(l, a, ranker, threshold);
    hide BestBundle, BundlesFor, Split, Join, OpenInScope, Covered, VerdictOn, InvoicesOk;
    FirstBundle(l.invoices, a.payer, a.amount);
  }

  lemma VerdictUsesBestBundle(l: LedgerState, a: Arrival, ranker: Ranker, threshold: real)
    requires threshold > 0.0
    requires VerdictOn(l, a, ranker, threshold).PostBundle? || VerdictOn(l, a, ranker, threshold).ReviewBundle?
    ensures var v := VerdictOn(l, a, ranker, threshold);
            var found := BestBundle(l.invoices, ViewOf(a), a.payer, ranker);
            && found.Some? && v.row == found.value.row
            && (v.PostBundle? ==> v.ids == found.value.ids)
  {
    hide BestBundle, BestOf, Singles;
  }

  // ---- One operation ------------------------------------------------------------------

  lemma PostingIsSafe(l: LedgerState, ids: seq<string>, wireAmount: int, isBundle: bool)
    requires InvoicesOk(l.invoices) && Covered(l.invoices, ids, wireAmount, isBundle)
    ensures var after := Posted(l.invoices, ids, wireAmount, isBundle);
            && InvoicesOk(after) && LaterInvoices(l.invoices, after)
            && 0 <= TotalPaid(after) - TotalPaid(l.invoices) <= wireAmount + Slack(isBundle)
  {
    PostedRows(l.invoices, ids, wireAmount, isBundle);
    PostingGrowth(l.invoices, ids, wireAmount, isBundle);
  }

  /** Invoices after ingest: untouched, or one covered posting. */
  lemma IngestInvoices(l: LedgerState, a: Arrival, ranker: Ranker, withTrust: bool, now: Time)
    requires Inv(l) && a.wireId !in l.wires
    ensures var after := Ingested(l, a, ranker, withTrust, now).0;
            var p := PostingOf(l, Ingest(a, ranker, withTrust, now));
            && InvoicesOk(after.invoices) && LaterInvoices(l.invoices, after.invoices)
            && 0 <= TotalPaid(after.invoices) - TotalPaid(l.invoices) <= Allowance(p)
            && (p.None? ==> after.invoices == l.invoices)
            && (p.Some? ==> p.value.wireAmount > 0)
  {
    var threshold := ThresholdFor(l.trust, a.payer, withTrust, now);
    var v := VerdictOn(l, a, ranker, threshold);
    LaterReflexive(l.invoices);
    if v.PostSingle? {
      var k := v.best.id.value - |l.candidates|;
      SingleCovered(l, a, k);
      PostingIsSafe(l, Split(Singles(l, a)[k].invoiceId), a.amount, false);
      SinglePosting(l, a, ranker, withTrust, now);
    } else if v.PostBundle? {
      BundleRowCovered(l, a, ranker, threshold);
      PostingIsSafe(l, v.ids, a.amount, true);
    }
    hide VerdictOn, ThresholdFor, Posted, InvoicesOk, LaterInvoices, TotalPaid, Covered, StoredRows, Split;
  }

  lemma SinglePosting(l: LedgerState, a: Arrival, ranker: Ranker, withTrust: bool, now: Time)
    requires VerdictOn(l, a, ranker, ThresholdFor(l.trust, a.payer, withTrust, now)).PostSingle?
    ensures var v := VerdictOn(l, a, ranker, ThresholdFor(l.trust, a.payer, withTrust, now));
            var id := Singles(l, a)[v.best.id.value - |l.candidates|].invoiceId;
            Ingested(l, a, ranker, withTrust, now).0.invoices == Posted(l.invoices, Split(id), a.amount, false)
  {
    hide VerdictOn, ThresholdFor, Split, Posted;
  }

  /** Covered rows for a newly stored wire join the old candidates. */
  lemma CandidatesExtend(l: LedgerState, after: LedgerState, wireId: string, rows: seq<Candidate>)
    requires Inv(l) && LaterInvoices(l.invoices, after.invoices)
    requires after.candidates == l.candidates + rows && wireId !in l.wires && wireId in after.wires
    requires forall k :: k in l.wires ==> k in after.wires && after.wires[k].amount == l.wires[k].amount
    requires forall c :: c in rows ==>
               c.wireId == wireId && Covered(l.invoices, Split(c.invoiceIds), after.wires[wireId].amount, c.isBundle)
    ensures forall i :: 0 <= i < |after.candidates| ==> CandidateOk(after, after.candidates[i])
  {
    CandidatesKept(l, after.invoices, after.wires);
    hide Inv, Covered, LaterInvoices, Split;
    forall i | 0 <= i < |after.candidates| ensures CandidateOk(after, after.candidates[i]) {
      if i < |l.candidates| {
        assert CandidateOk(l.(invoices := after.invoices, wires := after.wires), l.candidates[i]);
      } else {
        var c := rows[i - |l.candidates|];
        assert c in rows;
        CoveredLater(l.invoices, after.invoices, Split(c.invoiceIds), after.wires[wireId].amount, c.isBundle);
      }
    }
  }

  lemma IngestIsSafe(l: LedgerState, a: Arrival, ranker: Ranker, withTrust: bool, now: Time)
    requires Inv(l) && a.wireId !in l.wires
    ensures SafeStep(l, Ingested(l, a, ranker, withTrust, now).0, PostingOf(l, Ingest(a, ranker, withTrust, now)))
  {
    hide Ingested, VerdictOn, ThresholdFor, StoredRows, PostingOf, TotalPaid, Covered, LaterInvoices, Allowance, Split;
    hide InvoicesOk, Slack, CandidateOk;
    var threshold := ThresholdFor(l.trust, a.payer, withTrust, now);
    var after := Ingested(l, a, ranker, withTrust, now).0;
    IngestInvoices(l, a, ranker, withTrust, now);
    IngestStores(l, a, ranker, withTrust, now);
    StoredAreCovered(l, a, ranker, threshold);
    CandidatesExtend(l, after, a.wireId, StoredRows(l, a, ranker, VerdictOn(l, a, ranker, threshold)));
  }

  lemma IngestStores(l: LedgerState, a: Arrival, ranker: Ranker, withTrust: bool, now: Time)
    ensures var v := VerdictOn(l, a, ranker, ThresholdFor(l.trust, a.payer, withTrust, now));
            var (after, r) := Ingested(l, a, ranker, withTrust, now);
            && after.candidates == l.candidates + StoredRows(l, a, ranker, v)
            && after.wires == l.wires[a.wireId := WireRow(a, r.finalStatus)]
  {
    hide VerdictOn, ThresholdFor, StoredRows;
  }

  lemma ConfirmIsSafe(l: LedgerState, op: Op)
    requires Inv(l) && op.Confirm?
    ensures SafeStep(l, Next(l, op), PostingOf(l, op))
  {
    LaterReflexive(l.invoices);
    if CanConfirm(l, op.wireId, op.candidateId) {
      var wire, c := l.wires[op.wireId], l.candidates[op.candidateId];
      assert CandidateOk(l, c);
      var after := Next(l, op);
      if wire.status != AutoMatched {
        PostingIsSafe(l, Split(c.invoiceIds), wire.amount, c.isBundle);
      }
      CandidatesKept(l, after.invoices, after.wires);
      hide Posted, InvoicesOk, LaterInvoices, TotalPaid, Covered, Rewarded;
      forall i | 0 <= i < |after.candidates| ensures CandidateOk(after, after.candidates[i]) {
        assert CandidateOk(l.(invoices := after.invoices, wires := after.wires), l.candidates[i]);
      }
    }
  }

  lemma ReviewWithoutPostingIsSafe(l: LedgerState, op: Op)
    requires Inv(l) && (op.Override? || op.Reject?)
    ensures SafeStep(l, Next(l, op), PostingOf(l, op))
  {
    LaterReflexive(l.invoices);
    var after := Next(l, op);
    CandidatesKept(l, after.invoices, after.wires);
    forall i | 0 <= i < |after.candidates| ensures CandidateOk(after, after.candidates[i]) {
      assert CandidateOk(l.(invoices := after.invoices, wires := after.wires), l.candidates[i]);
    }
  }

  lemma StepIsSafe(l: LedgerState, op: Op)
    requires Inv(l)
    ensures SafeStep(l, Next(l, op), PostingOf(l, op))
  {
    match op {
      case Ingest(a, ranker, withTrust, now) =>
        if a.wireId !in l.wires {
          IngestIsSafe(l, a, ranker, withTrust, now);
        } else {
          LaterReflexive(l.invoices);
        }
      case Confirm(_, _, _, _, _) => ConfirmIsSafe(l, op);
      case Override(_, _, _, _, _) => ReviewWithoutPostingIsSafe(l, op);
      case Reject(_, _) => ReviewWithoutPostingIsSafe(l, op);
    }
  }

  // ---- Runs ---------------------------------------------------------------------------

  /** The cash a run was allowed to move: counted per posting, not per wire. */
  function Allowances(l: LedgerState, ops: seq<Op>): int
    decreases |ops|
  {
    if |ops| == 0 then 0 else Allowance(PostingOf(l, ops[0])) + Allowances(Next(l, ops[0]), ops[1..])
  }

  lemma LaterTransitive(a: seq<Invoice>, b: seq<Invoice>, c: seq<Invoice>)
    requires LaterInvoices(a, b) && LaterInvoices(b, c)
    ensures LaterInvoices(a, c)
  {
    forall i | 0 <= i < |a| ensures LaterInvoice(a[i], c[i]) {
      assert LaterInvoice(a[i], b[i]) && LaterInvoice(b[i], c[i]);
    }
  }

  /** Over any run of operations, including candidates stored early and confirmed late:
      payments stay within 0 and the amount, never shrink, PAID is never undone, and total cash
      grows by at most the wires posted plus 1.00 for each bundle posting. */
  lemma {:induction false} RunConservesCash(l: LedgerState, ops: seq<Op>)
    requires Inv(l)
    ensures Inv(Run(l, ops)) && LaterInvoices(l.invoices, Run(l, ops).invoices)
    ensures 0 <= TotalPaid(Run(l, ops).invoices) - TotalPaid(l.invoices) <= Allowances(l, ops)
    decreases |ops|
  {
    if |ops| == 0 {
      LaterReflexive(l.invoices);
    } else {
      StepIsSafe(l, ops[0]);
      hide Inv, Next, PostingOf, TotalPaid, LaterInvoices, Allowance;
      RunConservesCash(Next(l, ops[0]), ops[1..]);
      LaterTransitive(l.invoices, Next(l, ops[0]).invoices, Run(Next(l, ops[0]), ops[1..]).invoices);
    }
  }

  // ---- Trust --------------------------------------------------------------------------

  lemma RewardKeepsCache(trust: TE.TrustStore, payer: Option<string>, kind: TE.EventKind, withTrust: bool, now: Time)
    requires TE.CacheAgrees(trust)
    ensures TE.CacheAgrees(Rewarded(trust, payer, kind, withTrust, now))
  {
    if withTrust && Known(payer) {
      TE.UpdatedKeepsCache(trust, payer.value, kind, now);
    }
  }

  /** An operation leaves the trust store alone or rewards or penalises one payer once. */
  lemma StepTrust(l: LedgerState, op: Op)
    ensures var after := Next(l, op).trust;
            || after == l.trust
            || exists payer, kind, withTrust, now :: after == Rewarded(l.trust, payer, kind, withTrust, now)
  {
    hide VerdictOn, ThresholdFor, Posted, StoredRows, Rewarded;
  }

  /** Reconciliation too keeps every cached score the replay of the shared event log. */
  lemma {:induction false} RunKeepsTrustCache(l: LedgerState, ops: seq<Op>)
    requires TE.CacheAgrees(l.trust)
    ensures TE.CacheAgrees(Run(l, ops).trust)
    decreases |ops|
  {
    if |ops| > 0 {
      StepTrust(l, ops[0]);
      hide TE.CacheAgrees, Next, Rewarded;
      if Next(l, ops[0]).trust != l.trust {
        var payer, kind, withTrust, now :| Next(l, ops[0]).trust == Rewarded(l.trust, payer, kind, withTrust, now);
        RewardKeepsCache(l.trust, payer, kind, withTrust, now);
      }
      RunKeepsTrustCache(Next(l, ops[0]), ops[1..]);
    }
  }
}
