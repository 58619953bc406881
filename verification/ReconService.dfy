/** The reconciliation service as it runs: rows updated in place, one transaction per call. */
module ReconService {
  import opened Common
  import opened Features
  import opened IdList
  import opened Ledger
  import Bundler
  import TE = TrustEngine

  datatype Result<+T> = Success(value: T) | Failure(error: string)

  class Service {
    var invoices: seq<Invoice>
    var wires: map<string, Wire>
    var candidates: seq<Candidate>
    var matches: seq<Match>
    var decisions: seq<ReviewDecision>
    var trust: TE.TrustStore

    constructor (l: LedgerState)
      ensures Rows() == l
    {
      invoices, wires, candidates := l.invoices, l.wires, l.candidates;
      matches, decisions, trust := l.matches, l.decisions, l.trust;
    }

    function Rows(): LedgerState
      reads this
    {
      LedgerState(invoices, wires, candidates, matches, decisions, trust)
    }

    /** Marks each listed invoice PAID or PARTIAL in place. */
    method ApplyPaymentToInvoices(ids: seq<string>, wireAmount: int, isBundle: bool)
      modifies this`invoices
      ensures invoices == Posted(old(invoices), ids, wireAmount, isBundle)
    {
      var i := 0;
      while i < |invoices|
        invariant 0 <= i <= |invoices| == |old(invoices)|
        invariant forall j :: 0 <= j < i ==> invoices[j] == Posted(old(invoices), ids, wireAmount, isBundle)[j]
        invariant forall j :: i <= j < |invoices| ==> invoices[j] == old(invoices)[j]
      {
        var inv := invoices[i];
        if inv.id in ids {
          var credit := if isBundle then inv.amount else wireAmount;
          var newPaid := Min(inv.amountPaid + credit, inv.amount);
          inv := inv.(amountPaid := newPaid);
          inv := inv.(status := if Abs(newPaid - inv.amount) < 1 then Paid else Partial);
          invoices := invoices[i := inv];
        }
        i := i + 1;
      }
    }

    method EmitTrust(payer: Option<string>, kind: TE.EventKind, withTrust: bool, now: Time)
      modifies this`trust
      ensures trust == Rewarded(old(trust), payer, kind, withTrust, now)
    {
      if withTrust && Known(payer) {
        var engine := new TE.TrustEngine(trust);
        var _ := engine.UpdateTrust(payer.value, kind, now);
        trust := engine.Store();
      }
    }

    /** Stores one scored row per plausible invoice and keeps the first strictly best. */
    method ScoreSingles(wire: WireView, singles: seq<InvoiceView>, ranker: Ranker) returns (best: Best)
      modifies this`candidates
      ensures candidates == old(candidates) + SingleRows(wire, singles, ranker)
      ensures best == BestOf(SingleRows(wire, singles, ranker), |old(candidates)|)
    {
      best := Best(0.0, None);
      ghost var rows := SingleRows(wire, singles, ranker);
      for i := 0 to |singles|
        invariant candidates == old(candidates) + rows[..i]
        invariant best == BestOf(rows[..i], |old(candidates)|)
      {
        var row := SingleRow(wire, singles[i], ranker);
        assert row == rows[i] && rows[..i + 1][..i] == rows[..i];
        candidates := candidates + [row];
        if row.prob > best.prob {
          best := Best(row.prob, Some(|candidates| - 1));
        }
      }
      assert rows[..|singles|] == rows;
    }

    method WorstOf(wire: WireView, members: seq<InvoiceView>, ranker: Ranker) returns (prob: real)
      requires members != []
      ensures prob == WorstProb(wire, members, ranker)
    {
      prob := ranker(wire, members[0]).cal;
      for i := 1 to |members|
        invariant prob == WorstProb(wire, members[..i], ranker)
      {
        assert members[..i + 1][..i] == members[..i];
        var cal := ranker(wire, members[i]).cal;
        if cal < prob {
          prob := cal;
        }
      }
      assert members[..|members|] == members;
    }

    /** Runs the bundler over the open invoices in scope and scores its first result. */
    method ScoreBundle(wire: WireView, payer: Option<string>, ranker: Ranker) returns (r: Option<ScoredBundle>)
      ensures r == BestBundle(invoices, wire, payer, ranker)
    {
      hide Bundler.Bundles, Filter, WorstProb, Join;
      var openRows := OpenRows(invoices);
      var pool := Entries(Filter(openRows, OfScope(payer)));
      var bundles := Bundler.FindBundles(wire.amount, pool, Bundler.MAX_BUNDLE_SIZE, Bundler.DEFAULT_TOLERANCE,
                                         Bundler.DEFAULT_MAX_RESULTS);
      if bundles == [] {
        return None;
      }
      var ids := bundles[0].invoiceIds;
      var members := Filter(Views(openRows), IsMember(ids));
      if members == [] {
        return None;
      }
      var prob := WorstOf(wire, members, ranker);
      r := Some(ScoredBundle(Candidate(wire.wireId, Join(ids), true, prob, prob), ids));
    }

    /** Scores the singles, tries the bundler when none is good enough, stores what was scored. */
    method Conclude(a: Arrival, ranker: Ranker, threshold: real) returns (v: Verdict, singleCount: nat)
      requires threshold > 0.0
      modifies this`candidates
      ensures v == VerdictOn(old(Rows()), a, ranker, threshold)
      ensures singleCount == |Singles(Rows(), a)|
      ensures candidates == old(candidates) + StoredRows(Rows(), a, ranker, v)
    {
      hide BestBundle, BestOf, Filter, Views, OpenRows;
      var wv := ViewOf(a);
      var singles := CandidatesForWire(wv, Views(OpenRows(invoices)), a.payer, AMOUNT_TOLERANCE, DAYS_TOLERANCE);
      singleCount := |singles|;
      var best := ScoreSingles(wv, singles, ranker);
      if best.prob >= threshold {
        v := PostSingle(best);
      } else {
        var bundle := ScoreBundle(wv, a.payer, ranker);
        if bundle.Some? {
          var row := bundle.value.row;
          candidates := candidates + [row];
          v := if row.prob >= threshold then PostBundle(row, bundle.value.ids) else ReviewBundle(row);
        } else {
          v := if singles != [] then ReviewSingles(best) else NothingPlausible;
        }
      }
    }

    method IngestWire(a: Arrival, ranker: Ranker, withTrust: bool, now: Time) returns (r: Result<IngestResult>)
      modifies this
      ensures r.Failure? <==> a.wireId in old(wires)
      ensures r.Failure? ==> Rows() == old(Rows())
      ensures r.Success? ==> (Rows(), r.value) == Ingested(old(Rows()), a, ranker, withTrust, now)
    {
      if a.wireId in wires {
        return Failure("duplicate wire id " + a.wireId);
      }
      var threshold := ThresholdFor(trust, a.payer, withTrust, now);
      var v, count := Conclude(a, ranker, threshold);
      hide Settled;
      var answer := Act(a, v, threshold, count, withTrust, now);
      r := Success(answer);
    }

    /** Carries the verdict out: posts if it says so and gives the wire its final status. */
    method Act(a: Arrival, v: Verdict, threshold: real, count: nat, withTrust: bool, now: Time)
      returns (r: IngestResult)
      requires v.PostSingle? ==> v.best.id.Some? && v.best.id.value < |candidates|
      requires v.PostBundle? || v.ReviewBundle? ==> candidates != []
      modifies this
      ensures (Rows(), r) == Settled(old(Rows()), a, v, Rewarded(old(trust), a.payer, TE.AutoMatched, withTrust, now),
                                     threshold, count)
    {
      hide Posted, Rewarded, Split;
      match v {
        case PostSingle(best) =>
          var c := candidates[best.id.value];
          Post(a, c, Split(c.invoiceIds), false, withTrust, now);
          r := IngestResult(AutoMatched, best.id, best.prob, threshold, count);
        case PostBundle(row, ids) =>
          Post(a, row, ids, true, withTrust, now);
          r := IngestResult(AutoMatched, Some(|candidates| - 1), row.prob, threshold, count);
        case ReviewBundle(row) =>
          r := IngestResult(UnderReview, Some(|candidates| - 1), row.prob, threshold, count);
        case ReviewSingles(best) =>
          r := IngestResult(UnderReview, best.id, best.prob, threshold, count);
        case NothingPlausible =>
          r := IngestResult(Unmatched, None, 0.0, threshold, count);
      }
      wires := wires[a.wireId := WireRow(a, r.finalStatus)];
    }

    /** Records the automatic match, credits the invoices and rewards the payer. */
    method Post(a: Arrival, c: Candidate, ids: seq<string>, isBundle: bool, withTrust: bool, now: Time)
      modifies this`matches, this`invoices, this`trust
      ensures matches == old(matches) + [AutoMatch(a, c)]
      ensures invoices == Posted(old(invoices), ids, a.amount, isBundle)
      ensures trust == Rewarded(old(trust), a.payer, TE.AutoMatched, withTrust, now)
    {
      matches := matches + [Match(a.wireId, c.invoiceIds, c.isBundle, c.prob, AutoPosted, "auto")];
      ApplyPaymentToInvoices(ids, a.amount, isBundle);
      EmitTrust(a.payer, TE.AutoMatched, withTrust, now);
    }

    method ConfirmMatch(wireId: string, candidateId: int, review: Review, withTrust: bool, now: Time)
      returns (r: Result<Match>)
      modifies this
      ensures r.Success? <==> CanConfirm(old(Rows()), wireId, candidateId)
      ensures r.Failure? ==> Rows() == old(Rows())
      ensures r.Success? ==>
                && Rows() == Confirmed(old(Rows()), wireId, candidateId, review, withTrust, now)
                && r.value == matches[|matches| - 1]
      // In fields: the wire is MATCHED, and what the match and the decision record.
      ensures r.Success? ==>
                var was, c := old(wires)[wireId], old(candidates)[candidateId];
                && wires == old(wires)[wireId := was.(status := WireStatus.Matched)]
                && matches == old(matches)
                   + [Match(wireId, c.invoiceIds, c.isBundle, c.prob,
                            if was.status == AutoMatched then AutoPosted else HumanConfirmed, review.reviewer)]
                && decisions == old(decisions)
                   + [ReviewDecision(wireId, Some(candidateId), "confirm", review.note, review.reviewer)]
                && candidates == old(candidates)
                && (was.status == AutoMatched ==> invoices == old(invoices) && trust == old(trust))
    {
      if wireId !in wires {
        return Failure("unknown wire_id " + wireId);
      }
      if !(0 <= candidateId < |candidates|) || candidates[candidateId].wireId != wireId {
        return Failure("candidate not for wire " + wireId);
      }
      var wire, c := wires[wireId], candidates[candidateId];
      var wasAuto := wire.status == AutoMatched;
      var outcome := if !wasAuto then HumanConfirmed else AutoPosted;
      var m := Match(wireId, c.invoiceIds, c.isBundle, c.prob, outcome, review.reviewer);
      matches := matches + [m];
      if !wasAuto {
        ApplyPaymentToInvoices(Split(c.invoiceIds), wire.amount, c.isBundle);
      }
      wires := wires[wireId := wire.(status := Matched)];
      decisions := decisions + [ReviewDecision(wireId, Some(candidateId), "confirm", review.note, review.reviewer)];
      if !wasAuto {
        EmitTrust(wire.resolvedPayer, TE.AutoMatched, withTrust, now);
      }
      r := Success(m);
    }

    method OverrideMatch(wireId: string, ids: seq<string>, review: Review, withTrust: bool, now: Time)
      returns (r: Result<Match>)
      modifies this
      ensures r.Success? <==> wireId in old(wires)
      ensures r.Failure? ==> Rows() == old(Rows())
      ensures r.Success? ==>
                && Rows() == Overridden(old(Rows()), wireId, ids, review, withTrust, now)
                && r.value == matches[|matches| - 1]
      ensures r.Success? ==>
                && wires == old(wires)[wireId := old(wires)[wireId].(status := WireStatus.Matched)]
                && matches == old(matches) + [Match(wireId, Join(ids), |ids| >= 2, 0.0, HumanOverride, review.reviewer)]
                && decisions == old(decisions) + [ReviewDecision(wireId, None, "override", review.note, review.reviewer)]
                && candidates == old(candidates) && invoices == old(invoices)
    {
      if wireId !in wires {
        return Failure("unknown wire_id " + wireId);
      }
      var wire := wires[wireId];
      var m := Match(wireId, Join(ids), |ids| > 1, 0.0, HumanOverride, review.reviewer);
      matches := matches + [m];
      wires := wires[wireId := wire.(status := Matched)];
      decisions := decisions + [ReviewDecision(wireId, None, "override", review.note, review.reviewer)];
      EmitTrust(wire.resolvedPayer, TE.HumanOverride, withTrust, now);
      r := Success(m);
    }

    method RejectWire(wireId: string, review: Review) returns (r: Result<Wire>)
      modifies this
      ensures r.Success? <==> wireId in old(wires)
      ensures r.Failure? ==> Rows() == old(Rows())
      ensures r.Success? ==> Rows() == Rejecting(old(Rows()), wireId, review) && r.value == wires[wireId]
      ensures r.Success? ==>
                && wires == old(wires)[wireId := old(wires)[wireId].(status := WireStatus.Rejected)]
                && decisions == old(decisions) + [ReviewDecision(wireId, None, "reject", review.note, review.reviewer)]
                && invoices == old(invoices) && candidates == old(candidates)
                && matches == old(matches) && trust == old(trust)
    {
      if wireId !in wires {
        return Failure("unknown wire_id " + wireId);
      }
      var wire := wires[wireId].(status := Rejected);
      wires := wires[wireId := wire];
      decisions := decisions + [ReviewDecision(wireId, None, "reject", review.note, review.reviewer)];
      r := Success(wire);
    }
  }
}
