/** Reading trust: decay towards 0.5 with idleness, and the auto-match threshold derived from
    the read score. Exact real arithmetic; float rounding is not modelled. */
module TrustDecay {
  import opened Common
  import opened TrustEngine

  const SECONDS_PER_DAY := 86400
  const GRACE_DAYS := 30
  const WINDOW_DAYS := 180

  function RAbs(a: real): real {
    if a < 0.0 then -a else a
  }

  /** Whole days elapsed, rounded down as `timedelta.days` is. */
  function DaysSince(last: Time, now: Time): int {
    (now - last) / SECONDS_PER_DAY
  }

  function Drift(days: int): real {
    if days <= GRACE_DAYS then 0.0
    else RMin(1.0, (days - GRACE_DAYS) as real / WINDOW_DAYS as real)
  }

  function ApplyDecay(raw: real, last: Option<Time>, now: Time): real {
    if last.None? then raw
    else
      var days := DaysSince(last.value, now);
      if days <= GRACE_DAYS then raw
      else raw * (1.0 - Drift(days)) + 0.5 * Drift(days)
  }

  /** `get_trust`: the decayed, clamped score, or the default for an unknown payer. */
  function GetTrust(st: TrustStore, payer: string, now: Time): (r: real)
    ensures 0.0 <= r <= 1.0 && (payer !in st.rows ==> r == 0.5)
  {
    if payer !in st.rows then 0.5
    else
      var row := st.rows[payer];
      RMax(0.0, RMin(1.0, ApplyDecay(row.raw as real / 100.0, row.lastEventAt, now)))
  }

  function ThresholdForTrust(trust: real): real {
    if trust <= 0.30 then 0.97
    else if trust >= 0.75 then 0.88
    else 0.97 - 0.09 * ((trust - 0.30) / (0.75 - 0.30))
  }

  // ---- Decay --------------------------------------------------------------------------

  /** Scaling by less brings a number closer to zero on its own side. */
  lemma ScaledCloser(x: real, p: real, q: real)
    requires 0.0 <= q <= p
    ensures (0.0 <= x * q <= x * p) || (x * p <= x * q <= 0.0)
  {
    if x >= 0.0 {
      assert x * (p - q) >= 0.0;
    } else {
      assert (-x) * (p - q) >= 0.0;
    }
  }

  /** Age acts only through the drift, which grows from 0 to 1. */
  lemma DriftGrows(d1: int, d2: int)
    requires d1 <= d2
    ensures 0.0 <= Drift(d1) <= Drift(d2) <= 1.0
    ensures d1 <= 30 ==> Drift(d1) == 0.0
    ensures 210 <= d2 ==> Drift(d2) == 1.0
  {
  }

  /** Between the 30th and the 210th day every day adds one 180th. */
  lemma DriftIsLinear(days: int)
    ensures 30 <= days < 210 ==> Drift(days + 1) - Drift(days) == 1.0 / 180.0
  {
    if 30 <= days < 210 {
      assert Drift(days + 1) == (days - 29) as real / 180.0;
    }
  }

  /** The distance to 0.5 is scaled by the part of the window that is left. */
  lemma DecayScalesDistance(raw: real, last: Time, now: Time)
    ensures ApplyDecay(raw, Some(last), now) - 0.5
            == (raw - 0.5) * (1.0 - Drift(DaysSince(last, now)))
  {
    var d := Drift(DaysSince(last, now));
    assert raw * (1.0 - d) + 0.5 * d - 0.5 == (raw - 0.5) * (1.0 - d);
  }

  /** `b` lies between `a` and 0.5 and so is no farther from 0.5. */
  ghost predicate TowardHalf(a: real, b: real) {
    (0.5 <= b <= a) || (a <= b <= 0.5)
  }

  lemma ScaledTowardHalf(x: real, p: real, q: real, a: real, b: real)
    requires 0.0 <= q <= p
    requires a - 0.5 == x * p && b - 0.5 == x * q
    ensures TowardHalf(a, b)
  {
    ScaledCloser(x, p, q);
  }

  lemma DaysGrow(last: Time, t1: Time, t2: Time)
    requires t1 <= t2
    ensures DaysSince(last, t1) <= DaysSince(last, t2)
  {
  }

  lemma DecayMovesTowardHalf(raw: real, last: Time, t1: Time, t2: Time)
    requires 0.0 <= raw <= 1.0 && t1 <= t2
    ensures TowardHalf(raw, ApplyDecay(raw, Some(last), t1))
    ensures TowardHalf(ApplyDecay(raw, Some(last), t1), ApplyDecay(raw, Some(last), t2))
  {
    hide Drift, DaysSince, ApplyDecay, TowardHalf;
    DaysGrow(last, t1, t2);
    DriftGrows(DaysSince(last, t1), DaysSince(last, t2));
    DecayScalesDistance(raw, last, t1);
    DecayScalesDistance(raw, last, t2);
    var p1, p2 := 1.0 - Drift(DaysSince(last, t1)), 1.0 - Drift(DaysSince(last, t2));
    ScaledTowardHalf(raw - 0.5, 1.0, p1, raw, ApplyDecay(raw, Some(last), t1));
    ScaledTowardHalf(raw - 0.5, p1, p2, ApplyDecay(raw, Some(last), t1), ApplyDecay(raw, Some(last), t2));
  }

  /** Reading a payer's trust at any two later moments: between the cached score and 0.5,
      ever closer to 0.5, exact for 30 days of silence and 0.5 from 210 days. */
  lemma ReadScoreDecays(st: TrustStore, payer: string, t1: Time, t2: Time)
    requires CacheAgrees(st) && payer in st.rows && t1 <= t2
    ensures var raw := RawScore(st, payer) as real / 100.0;
            && TowardHalf(raw, GetTrust(st, payer, t1))
            && TowardHalf(GetTrust(st, payer, t1), GetTrust(st, payer, t2))
    ensures var last := LogOf(st, payer)[|LogOf(st, payer)| - 1].at;
            && (DaysSince(last, t1) <= 30 ==>
                  GetTrust(st, payer, t1) == RawScore(st, payer) as real / 100.0)
            && (DaysSince(last, t1) >= 210 ==> GetTrust(st, payer, t1) == 0.5)
            && (t1 - last < 31 * 86400 <==> DaysSince(last, t1) <= 30)
            && (t1 - last >= 210 * 86400 <==> DaysSince(last, t1) >= 210)
  {
    CachedScoreClosedForm(st, payer);
    var row := st.rows[payer];
    var raw := row.raw as real / 100.0;
    assert RawScore(st, payer) == Replay(DEFAULT_SCORE, LogOf(st, payer));
    var last := row.lastEventAt.value;
    DecayMovesTowardHalf(raw, last, t1, t2);
    DecayScalesDistance(raw, last, t1);
    DriftGrows(DaysSince(last, t1), DaysSince(last, t1));
  }

  // ---- Threshold ----------------------------------------------------------------------

  lemma BandSlope(t: real)
    ensures 0.09 * ((t - 0.30) / (0.75 - 0.30)) == 0.2 * (t - 0.30)
  {
  }

  /** One straight line, cut off at both ends of the band. */
  lemma ThresholdClosedForm(t: real)
    ensures ThresholdForTrust(t) == RMax(0.88, RMin(0.97, 1.03 - 0.2 * t))
  {
    BandSlope(t);
  }

  /** More trust never raises the bar, the bar stays in its band, and it moves at most a
      fifth as fast as the score. */
  lemma ThresholdShape(a: real, b: real)
    requires a <= b
    ensures 0.88 <= ThresholdForTrust(b) <= ThresholdForTrust(a) <= 0.97
    ensures ThresholdForTrust(a) - ThresholdForTrust(b) <= 0.2 * (b - a)
  {
    BandSlope(a);
    BandSlope(b);
  }

  /** Within the grace period one event moves the payer's bar by at most a fifth of its
      delta, hence by at most 0.02, and leaves every other payer's bar alone. */
  lemma OneEventMovesThresholdLittle(st: TrustStore, payer: string, kind: EventKind, now: Time, other: string)
    requires CacheAgrees(st)
    requires payer in st.rows ==>
               DaysSince(LogOf(st, payer)[|LogOf(st, payer)| - 1].at, now) <= GRACE_DAYS
    ensures var st' := Updated(st, payer, kind, now);
            var before := ThresholdForTrust(GetTrust(st, payer, now));
            var after := ThresholdForTrust(GetTrust(st', payer, now));
            && RAbs(after - before) <= 0.002 * Abs(EventDelta(kind)) as real
            && RAbs(after - before) <= 0.02
            && (EventDelta(kind) > 0 ==> after <= before)
            && (EventDelta(kind) < 0 ==> before <= after)
            && (other != payer ==>
                  GetTrust(st', other, now) == GetTrust(st, other, now))
  {
    var st' := Updated(st, payer, kind, now);
    var before, after := GetTrust(st, payer, now), GetTrust(st', payer, now);
    CachedScoreClosedForm(st, payer);
    if payer in st.rows {
      ReadScoreDecays(st, payer, now, now);
    }
    assert before == RawScore(st, payer) as real / 100.0;
    assert after == Clamp(RawScore(st, payer) + EventDelta(kind)) as real / 100.0;
    if before <= after {
      ThresholdShape(before, after);
    } else {
      ThresholdShape(after, before);
    }
  }
}
