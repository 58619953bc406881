/** What the ledger's operations do to trust, in numbers. */
module LedgerTrust {
  import opened Common
  import opened Ledger
  import opened LedgerConservation
  import TE = TrustEngine
  import TrustDecay

  /** Hundredths of trust an operation gives payer `p`, before clamping: one for an automatic match
      or a confirmation that posts, minus two for an override; nothing without a trust engine or
      for a wire resolved to nobody or somebody else. */
  function TrustMove(l: LedgerState, op: Op, p: string): int {
    match op
    case Ingest(a, _, withTrust, _) =>
      if withTrust && a.payer == Some(p) && p != "" && PostingOf(l, op).Some? then 1 else 0
    case Confirm(wireId, _, _, withTrust, _) =>
      if PostingOf(l, op).Some? && withTrust && l.wires[wireId].resolvedPayer == Some(p) && p != "" then 1 else 0
    case Override(wireId, _, _, withTrust, _) =>
      if wireId in l.wires && withTrust && l.wires[wireId].resolvedPayer == Some(p) && p != "" then -2 else 0
    case Reject(_, _) => 0
  }

  /** Every operation moves every payer's cached score by exactly that, within 0..100. */
  lemma StepMovesTrust(l: LedgerState, op: Op, p: string)
    requires 0 <= TE.RawScore(l.trust, p) <= 100
    ensures TE.RawScore(Next(l, op).trust, p) == Max(0, Min(100, TE.RawScore(l.trust, p) + TrustMove(l, op, p)))
  {
    hide VerdictOn, ThresholdFor, Posted, StoredRows, Singles;
  }

  /** Along the run every operation moves `p` by `d`. */
  predicate AllMove(l: LedgerState, ops: seq<Op>, p: string, d: int)
    decreases |ops|
  {
    |ops| > 0 ==> TrustMove(l, ops[0], p) == d && AllMove(Next(l, ops[0]), ops[1..], p, d)
  }

  /** n overrides leave max(0, s - 2n). */
  lemma {:induction false} OverridesDrain(l: LedgerState, ops: seq<Op>, p: string)
    requires 0 <= TE.RawScore(l.trust, p) <= 100 && AllMove(l, ops, p, -2)
    ensures TE.RawScore(Run(l, ops).trust, p) == Max(0, TE.RawScore(l.trust, p) - 2 * |ops|)
    decreases |ops|
  {
    if |ops| > 0 {
      StepMovesTrust(l, ops[0], p);
      hide Next, TrustMove, TE.RawScore;
      OverridesDrain(Next(l, ops[0]), ops[1..], p);
    }
  }

  /** n automatic matches or posting confirmations leave min(100, s + n). */
  lemma {:induction false} MatchesFill(l: LedgerState, ops: seq<Op>, p: string)
    requires 0 <= TE.RawScore(l.trust, p) <= 100 && AllMove(l, ops, p, 1)
    ensures TE.RawScore(Run(l, ops).trust, p) == Min(100, TE.RawScore(l.trust, p) + |ops|)
    decreases |ops|
  {
    if |ops| > 0 {
      StepMovesTrust(l, ops[0], p);
      hide Next, TrustMove, TE.RawScore;
      MatchesFill(Next(l, ops[0]), ops[1..], p);
    }
  }

  /** An override raises nobody's cached score and, while the payer is within its grace period,
      does not lower the bar its next wire has to reach. */
  lemma OverrideNeverHelps(l: LedgerState, op: Op, p: string)
    requires TE.CacheAgrees(l.trust) && op.Override? && op.wireId in l.wires
    ensures TE.RawScore(Next(l, op).trust, p) <= TE.RawScore(l.trust, p)
    ensures (p in l.trust.rows ==>
               TrustDecay.DaysSince(TE.LogOf(l.trust, p)[|TE.LogOf(l.trust, p)| - 1].at, op.now) <= TrustDecay.GRACE_DAYS)
            ==> ThresholdFor(Next(l, op).trust, Some(p), true, op.now) >= ThresholdFor(l.trust, Some(p), true, op.now)
  {
    TE.CachedScoreClosedForm(l.trust, p);
    StepMovesTrust(l, op, p);
    if TrustMove(l, op, p) == -2 {
      OverriddenTrust(l, op, p);
      if p in l.trust.rows ==>
           TrustDecay.DaysSince(TE.LogOf(l.trust, p)[|TE.LogOf(l.trust, p)| - 1].at, op.now) <= TrustDecay.GRACE_DAYS {
        TrustDecay.OneEventMovesThresholdLittle(l.trust, p, TE.HumanOverride, op.now, p);
      }
    } else {
      OtherTrust(l, op, p);
    }
    hide Next, TE.CacheAgrees, TE.Updated, TrustDecay.GetTrust, TE.RawScore, TE.LogOf;
  }

  lemma OverriddenTrust(l: LedgerState, op: Op, p: string)
    requires op.Override? && TrustMove(l, op, p) == -2
    ensures Next(l, op).trust == TE.Updated(l.trust, p, TE.HumanOverride, op.now)
  {
  }

  lemma OtherTrust(l: LedgerState, op: Op, p: string)
    requires op.Override? && op.wireId in l.wires && TrustMove(l, op, p) == 0
    ensures TrustDecay.GetTrust(Next(l, op).trust, p, op.now) == TrustDecay.GetTrust(l.trust, p, op.now)
  {
  }
}
