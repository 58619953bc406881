/** How often a wire's cash is applied: exactly when that is at most once, what a run then moves,
    and which invoices it leaves PAID or PARTIAL. */
module LedgerPostings {
  import opened Common
  import opened IdList
  import opened Ledger
  import opened LedgerInvariant
  import opened LedgerConservation
  import Bundler

  // ---- Posting at most once -------------------------------------------------------------

  function WireOf(op: Op): string {
    if op.Ingest? then op.arrival.wireId else op.wireId
  }

  /** How often a run applies wire `w`'s cash. */
  function PostingsFor(l: LedgerState, ops: seq<Op>, w: string): nat
    decreases |ops|
  {
    if |ops| == 0 then 0
    else Ind(WireOf(ops[0]) == w && PostingOf(l, ops[0]).Some?) + PostingsFor(Next(l, ops[0]), ops[1..], w)
  }

  ghost predicate IsPosting(m: Match, w: string) {
    m.wireId == w && m.outcome != HumanOverride
  }

  /** The match table shows that the wire's cash has been applied: a row that is no override. */
  ghost predicate AlreadyPosted(l: LedgerState, w: string) {
    exists i :: 0 <= i < |l.matches| && IsPosting(l.matches[i], w)
  }

  /** A wire that has not arrived has no such row, and an automatic match has left one. */
  ghost predicate MatchesTell(l: LedgerState, w: string) {
    && (w !in l.wires ==> !AlreadyPosted(l, w))
    && (w in l.wires && l.wires[w].status == AutoMatched ==> AlreadyPosted(l, w))
  }

  /** The confirmation would apply cash that the match table shows as applied. */
  ghost predicate PostsAgain(l: LedgerState, op: Op, w: string) {
    && op.Confirm? && op.wireId == w && CanConfirm(l, op.wireId, op.candidateId)
    && l.wires[w].status != AutoMatched && AlreadyPosted(l, w)
  }

  /** No confirmation in the run does, which its caller can see before each call. */
  ghost predicate NeverAgain(l: LedgerState, ops: seq<Op>, w: string)
    decreases |ops|
  {
    |ops| > 0 ==> !PostsAgain(l, ops[0], w) && NeverAgain(Next(l, ops[0]), ops[1..], w)
  }

  lemma MatchAppended(l: LedgerState, after: LedgerState, m: Match, w: string)
    requires after.matches == l.matches + [m]
    ensures AlreadyPosted(after, w) <==> AlreadyPosted(l, w) || IsPosting(m, w)
  {
    assert after.matches[|l.matches|] == m;
    if AlreadyPosted(l, w) {
      var i :| 0 <= i < |l.matches| && IsPosting(l.matches[i], w);
      assert after.matches[i] == l.matches[i];
    }
  }

  /** A row for the operation's wire: an override's, or that of cash applied now or, for an
      auto-matched wire, at ingest. */
  ghost predicate RowOf(l: LedgerState, op: Op, m: Match) {
    && m.wireId == WireOf(op)
    && (m.outcome == HumanOverride <==> op.Override?)
    && (PostingOf(l, op).Some? || op.Override? || ConfirmsAuto(l, op))
  }

  predicate ConfirmsAuto(l: LedgerState, op: Op) {
    op.Confirm? && op.wireId in l.wires && l.wires[op.wireId].status == AutoMatched
  }

  /** An operation adds no match row or one. */
  lemma MatchRows(l: LedgerState, op: Op)
    ensures var after := Next(l, op);
            || (after.matches == l.matches && PostingOf(l, op).None?)
            || (exists m :: after.matches == l.matches + [m] && RowOf(l, op, m))
  {
    hide VerdictOn, ThresholdFor, StoredRows, Posted, Rewarded, Split, Singles;
    var after := Next(l, op);
    if after.matches != l.matches {
      assert after.matches == l.matches + [after.matches[|l.matches|]];
    }
  }

  lemma StatusAfter(l: LedgerState, op: Op, w: string)
    ensures var after := Next(l, op);
            && (w in l.wires ==> w in after.wires && after.wires[w].amount == l.wires[w].amount)
            && (w in after.wires && w !in l.wires ==> op.Ingest? && WireOf(op) == w)
            && (w in after.wires && after.wires[w].status == AutoMatched ==>
                  (w in l.wires && l.wires[w].status == AutoMatched)
                  || (WireOf(op) == w && PostingOf(l, op).Some?))
            && (PostingOf(l, op).Some? && WireOf(op) == w ==>
                  w in after.wires && after.wires[w].amount == PostingOf(l, op).value.wireAmount)
            && (op.Ingest? && PostingOf(l, op).Some? ==> WireOf(op) !in l.wires)
            && (WireOf(op) !in l.wires ==> after == l || op.Ingest?)
  {
    hide VerdictOn, ThresholdFor, StoredRows, Posted, Rewarded, Split, Singles;
  }

  lemma StepTells(l: LedgerState, op: Op, w: string)
    requires MatchesTell(l, w)
    ensures var posts := WireOf(op) == w && PostingOf(l, op).Some?;
            && MatchesTell(Next(l, op), w)
            && (AlreadyPosted(Next(l, op), w) <==> AlreadyPosted(l, w) || posts)
            && (posts && AlreadyPosted(l, w) <==> PostsAgain(l, op, w))
  {
    var after := Next(l, op);
    MatchRows(l, op);
    StatusAfter(l, op, w);
    ConfirmPosts(l, op);
    hide Next, PostingOf, AlreadyPosted;
    if after.matches == l.matches && PostingOf(l, op).None? {
      SameMatches(l, after, w);
    } else {
      var m :| after.matches == l.matches + [m] && RowOf(l, op, m);
      MatchAppended(l, after, m, w);
    }
  }

  lemma SameMatches(l: LedgerState, after: LedgerState, w: string)
    requires after.matches == l.matches
    ensures AlreadyPosted(after, w) <==> AlreadyPosted(l, w)
  {
  }

  lemma ConfirmPosts(l: LedgerState, op: Op)
    ensures op.Confirm? ==>
              (PostingOf(l, op).Some? <==> CanConfirm(l, op.wireId, op.candidateId) && l.wires[op.wireId].status != AutoMatched)
    ensures op.Override? || op.Reject? ==> PostingOf(l, op).None?
  {
  }

  /** A wire's cash is applied at most once, counting what the match table already shows, exactly
      when every confirmation that would post finds the table without a posting of that wire. */
  lemma {:induction false} PostsOnceIff(l: LedgerState, ops: seq<Op>, w: string)
    requires MatchesTell(l, w)
    ensures PostingsFor(l, ops, w) + Ind(AlreadyPosted(l, w)) <= 1
            <==> NeverAgain(l, ops, w)
    ensures MatchesTell(Run(l, ops), w)
    ensures AlreadyPosted(Run(l, ops), w) <==> AlreadyPosted(l, w) || PostingsFor(l, ops, w) > 0
    decreases |ops|
  {
    if |ops| > 0 {
      StepTells(l, ops[0], w);
      PostsOnceIff(Next(l, ops[0]), ops[1..], w);
      hide Next, PostingOf, PostsAgain, AlreadyPosted, MatchesTell;
    }
  }

  /** Confirmations come only while the wire is neither MATCHED nor REJECTED. */
  predicate Careful(l: LedgerState, ops: seq<Op>)
    decreases |ops|
  {
    |ops| > 0 ==>
      && (ops[0].Confirm? && ops[0].wireId in l.wires ==>
            l.wires[ops[0].wireId].status != Matched && l.wires[ops[0].wireId].status != Rejected)
      && Careful(Next(l, ops[0]), ops[1..])
  }

  /** The wire's cash may still be applied: it has not arrived yet or awaits review. */
  predicate Unsettled(l: LedgerState, w: string) {
    w in l.wires ==> l.wires[w].status == UnderReview || l.wires[w].status == Unmatched || l.wires[w].status == Pending
  }

  lemma OneStepPosts(l: LedgerState, op: Op, w: string)
    requires Careful(l, [op])
    ensures WireOf(op) == w && PostingOf(l, op).Some? ==> Unsettled(l, w) && !Unsettled(Next(l, op), w)
    ensures !Unsettled(l, w) ==> !Unsettled(Next(l, op), w)
  {
    hide VerdictOn, ThresholdFor, StoredRows, Posted, Rewarded, Split, Singles;
  }

  /** With that care no wire's cash is applied twice, however the operations interleave, and a
      wire that is settled already is not posted at all. */
  lemma {:induction false} CarefulRunPostsOnce(l: LedgerState, ops: seq<Op>, w: string)
    requires Careful(l, ops)
    ensures PostingsFor(l, ops, w) <= Ind(Unsettled(l, w))
    decreases |ops|
  {
    if |ops| > 0 {
      hide Next, PostingOf, Unsettled;
      assert Careful(l, [ops[0]]);
      OneStepPosts(l, ops[0], w);
      CarefulRunPostsOnce(Next(l, ops[0]), ops[1..], w);
    }
  }

  // ---- Cash by wire ---------------------------------------------------------------------

  /** The wires posted, in order of posting. */
  function PostedWires(l: LedgerState, ops: seq<Op>): seq<string>
    decreases |ops|
  {
    if |ops| == 0 then []
    else (if PostingOf(l, ops[0]).Some? then [WireOf(ops[0])] else []) + PostedWires(Next(l, ops[0]), ops[1..])
  }

  function BundlePostings(l: LedgerState, ops: seq<Op>): nat
    decreases |ops|
  {
    if |ops| == 0 then 0
    else
      var p := PostingOf(l, ops[0]);
      Ind(p.Some? && p.value.isBundle) + BundlePostings(Next(l, ops[0]), ops[1..])
  }

  function AmountIn(l: LedgerState): string -> int {
    (w: string) => if w in l.wires then l.wires[w].amount else 0
  }

  lemma {:induction false} WiresKept(l: LedgerState, ops: seq<Op>, w: string)
    requires w in l.wires
    ensures w in Run(l, ops).wires && Run(l, ops).wires[w].amount == l.wires[w].amount
    decreases |ops|
  {
    if |ops| > 0 {
      StatusAfter(l, ops[0], w);
      hide Next, PostingOf;
      WiresKept(Next(l, ops[0]), ops[1..], w);
    }
  }

  lemma {:induction false} AllowancesByWire(l: LedgerState, ops: seq<Op>)
    ensures Allowances(l, ops)
            == Sum(PostedWires(l, ops), AmountIn(Run(l, ops))) + Bundler.DEFAULT_TOLERANCE * BundlePostings(l, ops)
    decreases |ops|
  {
    hide Next, PostingOf;
    if |ops| > 0 {
      var l' := Next(l, ops[0]);
      AllowancesByWire(l', ops[1..]);
      if PostingOf(l, ops[0]).Some? {
        var w := WireOf(ops[0]);
        StatusAfter(l, ops[0], w);
        WiresKept(l', ops[1..], w);
        var end := AmountIn(Run(l', ops[1..]));
        SumAppend([w], PostedWires(l', ops[1..]), end);
        SumSingle([], w, end);
        assert [] + [w] == [w];
        assert Sum([w], end) == PostingOf(l, ops[0]).value.wireAmount;
      } else {
        assert PostedWires(l, ops) == PostedWires(l', ops[1..]);
      }
    }
  }

  lemma {:induction false} PostedWiresCount(l: LedgerState, ops: seq<Op>)
    ensures forall w :: w in PostedWires(l, ops) <==> PostingsFor(l, ops, w) > 0
    ensures (forall w :: PostingsFor(l, ops, w) <= 1) ==> NoRepeats(PostedWires(l, ops))
    decreases |ops|
  {
    if |ops| > 0 {
      hide Next, PostingOf;
      var l', rest := Next(l, ops[0]), ops[1..];
      PostedWiresCount(l', rest);
      var tail := PostedWires(l', rest);
      if forall w :: PostingsFor(l, ops, w) <= 1 {
        forall w ensures PostingsFor(l', rest, w) <= 1 {
          assert PostingsFor(l, ops, w) <= 1;
        }
        if PostingOf(l, ops[0]).Some? {
          var w0 := WireOf(ops[0]);
          assert PostingsFor(l, ops, w0) <= 1;
          assert w0 !in tail;
        }
      }
    }
  }

  /** When no confirmation posts again, a run posts each wire once, and total cash grows by at
      most the amounts of those different wires plus 1.00 for each bundle. */
  lemma CashIsWiresOnce(l: LedgerState, ops: seq<Op>)
    requires Inv(l) && forall w :: MatchesTell(l, w) && NeverAgain(l, ops, w)
    ensures NoRepeats(PostedWires(l, ops))
    ensures 0 <= TotalPaid(Run(l, ops).invoices) - TotalPaid(l.invoices)
              <= Sum(PostedWires(l, ops), AmountIn(Run(l, ops))) + Bundler.DEFAULT_TOLERANCE * BundlePostings(l, ops)
  {
    hide Inv, MatchesTell, NeverAgain, TotalPaid, AlreadyPosted, Next, PostingOf;
    RunConservesCash(l, ops);
    AllowancesByWire(l, ops);
    forall w ensures PostingsFor(l, ops, w) <= 1 {
      PostsOnceIff(l, ops, w);
    }
    PostedWiresCount(l, ops);
  }

  // ---- What a run leaves on an invoice ----------------------------------------------------

  /** The invoice ids an operation posts to. */
  function IdsPosted(l: LedgerState, op: Op): seq<string> {
    match op
    case Ingest(a, ranker, withTrust, now) =>
      if a.wireId in l.wires then []
      else
        var v := VerdictOn(l, a, ranker, ThresholdFor(l.trust, a.payer, withTrust, now));
        if v.PostSingle? then Split(Singles(l, a)[v.best.id.value - |l.candidates|].invoiceId)
        else if v.PostBundle? then v.ids
        else []
    case Confirm(wireId, candidateId, _, _, _) =>
      if CanConfirm(l, wireId, candidateId) then Split(l.candidates[candidateId].invoiceIds) else []
    case Override(_, _, _, _, _) => []
    case Reject(_, _) => []
  }

  lemma InvoicesAfter(l: LedgerState, op: Op)
    ensures var p := PostingOf(l, op);
            Next(l, op).invoices
            == if p.Some? then Posted(l.invoices, IdsPosted(l, op), p.value.wireAmount, p.value.isBundle) else l.invoices
  {
    hide VerdictOn, ThresholdFor, Ingested, Posted, Rewarded, Split, Singles;
    if op.Ingest? && op.arrival.wireId !in l.wires {
      IngestedInvoices(l, op.arrival, op.ranker, op.withTrust, op.now);
    }
  }

  lemma IngestedInvoices(l: LedgerState, a: Arrival, ranker: Ranker, withTrust: bool, now: Time)
    ensures var v := VerdictOn(l, a, ranker, ThresholdFor(l.trust, a.payer, withTrust, now));
            Ingested(l, a, ranker, withTrust, now).0.invoices
            == if v.PostSingle? then
                 Posted(l.invoices, Split(Singles(l, a)[v.best.id.value - |l.candidates|].invoiceId), a.amount, false)
               else if v.PostBundle? then Posted(l.invoices, v.ids, a.amount, true)
               else l.invoices
  {
    if VerdictOn(l, a, ranker, ThresholdFor(l.trust, a.payer, withTrust, now)).PostSingle? {
      SinglePosting(l, a, ranker, withTrust, now);
    }
    hide VerdictOn, ThresholdFor, StoredRows, Posted, Rewarded, Split, Singles;
  }

  /** Some posting of the run names the invoice. */
  function Touched(l: LedgerState, ops: seq<Op>, id: string): bool
    decreases |ops|
  {
    |ops| > 0 &&
    ((PostingOf(l, ops[0]).Some? && id in IdsPosted(l, ops[0])) || Touched(Next(l, ops[0]), ops[1..], id))
  }

  /** PAID exactly when fully paid, PARTIAL exactly when not. */
  predicate StatusTells(inv: Invoice) {
    && (inv.status == Paid <==> inv.amountPaid == inv.amount)
    && (inv.status == Partial <==> inv.amountPaid != inv.amount)
  }

  /** After any run, from any ledger, every invoice some posting named has the status its payments
      call for, and every other invoice is exactly as it was. */
  lemma {:induction false} RunSettlesPosted(l: LedgerState, ops: seq<Op>, i: nat)
    requires i < |l.invoices|
    ensures |Run(l, ops).invoices| == |l.invoices|
    ensures var before, after := l.invoices[i], Run(l, ops).invoices[i];
            && after.id == before.id
            && if Touched(l, ops, before.id) then StatusTells(after) else after == before
    decreases |ops|
  {
    if |ops| > 0 {
      hide Next, PostingOf, IdsPosted;
      InvoicesAfter(l, ops[0]);
      RunSettlesPosted(Next(l, ops[0]), ops[1..], i);
    }
  }

  // ---- The witness ----------------------------------------------------------------------

  function OneInvoice(status: InvoiceStatus, paid: int): seq<Invoice> {
    [Invoice("INV-1", "p", 20, 0, status, paid)]
  }

  lemma TenCentsCovered(status: InvoiceStatus, paid: int)
    ensures Covered(OneInvoice(status, paid), Split("INV-1"), 10, false)
    ensures TotalPaid(OneInvoice(status, paid)) == paid
  {
    SplitPiece("INV-1");
    var rows := OneInvoice(status, paid);
    assert rows[..0] == [];
    assert Sum(rows, PaidOf()) == Sum(rows[..0], PaidOf()) + paid;
    assert Sum(rows, Offer(["INV-1"], 10, false)) == Sum(rows[..0], Offer(["INV-1"], 10, false)) + 10;
  }

  lemma TenCentsPosted(status: InvoiceStatus, paid: int)
    requires 0 <= paid <= 10
    ensures Posted(OneInvoice(status, paid), Split("INV-1"), 10, false)
            == OneInvoice(if paid == 10 then Paid else Partial, paid + 10)
  {
    SplitPiece("INV-1");
  }

  /** A wire of ten cents pays twenty cents of an invoice when its candidate is confirmed twice. */
  lemma DoubleConfirmDoublesCash(l: LedgerState, c: Op)
    requires l.invoices == OneInvoice(Open, 0)
    requires l.wires == map["w" := Wire(10, 0, "", "", None, UnderReview)]
    requires l.candidates == [Candidate("w", "INV-1", false, 0.0, 0.5)]
    requires c == Confirm("w", 0, Review("r", ""), false, 0)
    ensures Inv(l) && TotalPaid(Run(l, [c, c]).invoices) == 2 * l.wires["w"].amount
  {
    TenCentsCovered(Open, 0);
    TenCentsPosted(Open, 0);
    TenCentsPosted(Partial, 10);
    TenCentsCovered(Paid, 20);
    assert Inv(l);
    hide Posted, Covered, Split, TotalPaid, OneInvoice, InvoicesOk;
    var l1 := Next(l, c);
    var l2 := Next(l1, c);
    assert [c, c][1..] == [c];
    assert Run(l, [c, c]) == Run(l1, [c]) == Run(l2, []);
  }
}
