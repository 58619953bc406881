/** Per-payer trust: a cached score over an append-only event log, and the windowed replay of
    that log that the dashboard plots. Scores and deltas are integer hundredths. */
module TrustEngine {
  import opened Common
  import opened Sorting

  const DEFAULT_SCORE := 50

  datatype EventKind =
    | PromiseKept | PromiseBroken | PartialReceived | AutoMatched
    | HumanOverride | SilentFailCaught | CleanExtractionStreak | CallHostile

  function EventDelta(kind: EventKind): int {
    match kind
    case PromiseKept => 5
    case PromiseBroken => -10
    case PartialReceived => 2
    case AutoMatched => 1
    case HumanOverride => -2
    case SilentFailCaught => -3
    case CleanExtractionStreak => 1
    case CallHostile => -2
  }

  /** One row of the event log. */
  datatype Event = Event(payer: string, kind: EventKind, delta: int, at: Time)

  /** One cached row: the raw score and when it was last touched. */
  datatype Row = Row(raw: int, lastEventAt: Option<Time>)

  datatype TrustStore = TrustStore(rows: map<string, Row>, events: seq<Event>)

  const EMPTY_STORE := TrustStore(map[], [])

  function Clamp(score: int): int {
    Max(0, Min(100, score))
  }

  function RowOf(st: TrustStore, payer: string): Row {
    if payer in st.rows then st.rows[payer] else Row(DEFAULT_SCORE, None)
  }

  function RawScore(st: TrustStore, payer: string): int {
    RowOf(st, payer).raw
  }

  /** The store after one event: the specification of `update_trust`. */
  function Updated(st: TrustStore, payer: string, kind: EventKind, now: Time): TrustStore {
    var delta := EventDelta(kind);
    TrustStore(
      st.rows[payer := Row(Clamp(RawScore(st, payer) + delta), Some(now))],
      st.events + [Event(payer, kind, delta, now)])
  }

  class TrustEngine {
    var rows: map<string, Row>
    var events: seq<Event>

    function Store(): TrustStore
      reads this
    {
      TrustStore(rows, events)
    }

    constructor (st: TrustStore)
      ensures Store() == st
    {
      rows, events := st.rows, st.events;
    }

    method UpdateTrust(payer: string, kind: EventKind, now: Time) returns (score: int)
      modifies this
      ensures Store() == Updated(old(Store()), payer, kind, now)
      ensures score == RawScore(Store(), payer)
      // In numbers: eight kinds of event, each moving the score within 0..100.
      ensures var was := RawScore(old(Store()), payer);
              0 <= was <= 100 ==>
                && (kind == PromiseKept ==> score == if was > 95 then 100 else was + 5)
                && (kind == PromiseBroken ==> score == if was < 10 then 0 else was - 10)
                && (kind == PartialReceived ==> score == if was > 98 then 100 else was + 2)
                && (kind == AutoMatched ==> score == if was == 100 then 100 else was + 1)
                && (kind == HumanOverride ==> score == if was < 2 then 0 else was - 2)
                && (kind == SilentFailCaught ==> score == if was < 3 then 0 else was - 3)
                && (kind == CleanExtractionStreak ==> score == if was == 100 then 100 else was + 1)
                && (kind == CallHostile ==> score == if was < 2 then 0 else was - 2)
      ensures payer in rows && rows[payer] == Row(score, Some(now))
      ensures forall q :: q != payer ==> RowOf(Store(), q) == RowOf(old(Store()), q)
      ensures |events| == |old(events)| + 1 && old(events) <= events
      ensures var e := events[|old(events)|];
              e.payer == payer && e.kind == kind && e.at == now
              && (0 <= RawScore(old(Store()), payer) + e.delta <= 100 ==> score == RawScore(old(Store()), payer) + e.delta)
    {
      var delta := EventDelta(kind);
      var row := Row(DEFAULT_SCORE, None);
      if payer in rows {
        row := rows[payer];
      }
      score := Clamp(row.raw + delta);
      row := row.(raw := score, lastEventAt := Some(now));
      rows := rows[payer := row];
      events := events + [Event(payer, kind, delta, now)];
    }
  }

  // ---- The cache is a fold of the log -------------------------------------------------

  /** Replaying deltas one clamp at a time. */
  function Replay(start: int, events: seq<Event>): int {
    if events == [] then start
    else Clamp(Replay(start, events[..|events| - 1]) + events[|events| - 1].delta)
  }

  function OfPayer(payer: string): Event -> bool {
    (e: Event) => e.payer == payer
  }

  function LogOf(st: TrustStore, payer: string): seq<Event> {
    Filter(st.events, OfPayer(payer))
  }

  /** Every cached score is the replay of that payer's log from the default score, a payer
      without a row has an empty log, and the row's timestamp is the last event's. */
  ghost predicate CacheAgrees(st: TrustStore) {
    forall payer: string ::
      && RawScore(st, payer) == Replay(DEFAULT_SCORE, LogOf(st, payer))
      && (payer !in st.rows ==> LogOf(st, payer) == [])
      && (payer in st.rows ==>
            && LogOf(st, payer) != []
            && st.rows[payer].lastEventAt == Some(LogOf(st, payer)[|LogOf(st, payer)| - 1].at))
  }

  lemma UpdatedKeepsCache(st: TrustStore, payer: string, kind: EventKind, now: Time)
    requires CacheAgrees(st)
    ensures CacheAgrees(Updated(st, payer, kind, now))
  {
    var e := Event(payer, kind, EventDelta(kind), now);
    var st' := Updated(st, payer, kind, now);
    forall p: string
      ensures RawScore(st', p) == Replay(DEFAULT_SCORE, LogOf(st', p))
      ensures p !in st'.rows ==> LogOf(st', p) == []
      ensures p in st'.rows ==>
                && LogOf(st', p) != []
                && st'.rows[p].lastEventAt == Some(LogOf(st', p)[|LogOf(st', p)| - 1].at)
    {
      assert RawScore(st, p) == Replay(DEFAULT_SCORE, LogOf(st, p));
      FilterSingle(st.events, e, OfPayer(p));
      if p == payer {
        assert (LogOf(st, p) + [e])[..|LogOf(st, p)|] == LogOf(st, p);
      } else {
        assert LogOf(st', p) == LogOf(st, p) + [] == LogOf(st, p);
      }
    }
  }

  datatype Update = Update(payer: string, kind: EventKind, at: Time)

  function UpdateAll(st: TrustStore, us: seq<Update>): TrustStore
    decreases us
  {
    if us == [] then st
    else UpdateAll(Updated(st, us[0].payer, us[0].kind, us[0].at), us[1..])
  }

  /** Every interleaving of updates over any payers keeps cache and log in agreement. */
  lemma {:induction false} RunKeepsCache(st: TrustStore, us: seq<Update>)
    requires CacheAgrees(st)
    ensures CacheAgrees(UpdateAll(st, us))
    decreases us
  {
    if us != [] {
      UpdatedKeepsCache(st, us[0].payer, us[0].kind, us[0].at);
      RunKeepsCache(Updated(st, us[0].payer, us[0].kind, us[0].at), us[1..]);
    }
  }

  // ---- A fold of clamped additions is one clamped shift -------------------------------

  /** x |-> max(lo, min(hi, x + shift)). */
  datatype Shift = Shift(lo: int, hi: int, shift: int) {
    function At(x: int): int {
      Max(lo, Min(hi, x + shift))
    }
  }

  function SumDeltas(events: seq<Event>): int {
    if events == [] then 0
    else SumDeltas(events[..|events| - 1]) + events[|events| - 1].delta
  }

  /** The band of the single shift: each event moves both ends and clamps them. */
  function ShiftOf(events: seq<Event>): Shift {
    if events == [] then Shift(0, 100, 0)
    else
      var s := ShiftOf(events[..|events| - 1]);
      var d := events[|events| - 1].delta;
      Shift(Clamp(s.lo + d), Clamp(s.hi + d), s.shift + d)
  }

  /** Closed form of replaying any log from any score in [0, 100]. */
  lemma {:induction false} ReplayIsOneShift(start: int, events: seq<Event>)
    requires 0 <= start <= 100
    ensures Replay(start, events) == ShiftOf(events).At(start)
    ensures 0 <= ShiftOf(events).lo <= ShiftOf(events).hi <= 100
    ensures ShiftOf(events).shift == SumDeltas(events)
  {
    if events != [] {
      ReplayIsOneShift(start, events[..|events| - 1]);
    }
  }

  /** Consequences of the closed form: the cached score in one expression, and its range. */
  lemma CachedScoreClosedForm(st: TrustStore, payer: string)
    requires CacheAgrees(st)
    ensures RawScore(st, payer) == ShiftOf(LogOf(st, payer)).At(DEFAULT_SCORE)
    ensures 0 <= RawScore(st, payer) <= 100
  {
    ReplayIsOneShift(DEFAULT_SCORE, LogOf(st, payer));
  }

  // ---- Windowed replay ----------------------------------------------------------------

  datatype Point = Point(score: int, delta: int)

  function InWindow(payer: string, cutoff: Time): Event -> bool {
    (e: Event) => e.payer == payer && e.at >= cutoff
  }

  function ByTime(): Event -> Key {
    (e: Event) => (e.at, 0)
  }

  /** The rows the history query returns: this payer's, since the cutoff, oldest first. */
  function Window(st: TrustStore, payer: string, cutoff: Time): seq<Event> {
    StableSort(Filter(st.events, InWindow(payer, cutoff)), ByTime())
  }

  /** The plotted points before the closing one. */
  function PointsOf(events: seq<Event>): seq<Point> {
    if events == [] then [Point(DEFAULT_SCORE, 0)]
    else PointsOf(events[..|events| - 1])
         + [Point(Replay(DEFAULT_SCORE, events), events[|events| - 1].delta)]
  }

  method TrustHistory(st: TrustStore, payer: string, cutoff: Time) returns (points: seq<Point>)
    ensures var events := Window(st, payer, cutoff);
            points == PointsOf(events) + [Point(Replay(DEFAULT_SCORE, events), 0)]
  {
    var events := Window(st, payer, cutoff);
    var running := DEFAULT_SCORE;
    points := [Point(DEFAULT_SCORE, 0)];
    for n := 0 to |events|
      invariant running == Replay(DEFAULT_SCORE, events[..n])
      invariant points == PointsOf(events[..n])
    {
      assert events[..n + 1][..n] == events[..n];
      running := Max(0, Min(100, running + events[n].delta));
      points := points + [Point(running, events[n].delta)];
    }
    assert events[..|events|] == events;
    points := points + [Point(running, 0)];
  }

  /** The line starts at the baseline and its i-th point is the replay of the first i events. */
  lemma {:induction false} PointsAreReplays(events: seq<Event>, i: nat)
    requires i <= |events|
    ensures |PointsOf(events)| == |events| + 1
    ensures PointsOf(events)[i].score == Replay(DEFAULT_SCORE, events[..i])
    ensures i > 0 ==> PointsOf(events)[i].delta == events[i - 1].delta
  {
    if i == |events| {
      assert events[..i] == events;
      if events != [] {
        PointsAreReplays(events[..i - 1], 0);
      }
    } else {
      PointsAreReplays(events[..|events| - 1], i);
      assert events[..|events| - 1][..i] == events[..i];
    }
  }

  /** The log is in time order, as a monotone clock writes it. */
  ghost predicate LogInOrder(st: TrustStore) {
    forall i, j :: 0 <= i < j < |st.events| ==> st.events[i].at <= st.events[j].at
  }

  lemma {:induction false} FilterKeepsOrder(events: seq<Event>, p: Event -> bool)
    requires SortedBy(events, ByTime())
    ensures SortedBy(Filter(events, p), ByTime())
  {
    if events != [] {
      var n := |events| - 1;
      FilterKeepsOrder(events[..n], p);
      FilterMembers(events[..n], p);
      var r := Filter(events[..n], p);
      forall i | 0 <= i < |r| ensures r[i].at <= events[n].at {
        assert r[i] in r;
        assert r[i] in events[..n];
        var j :| 0 <= j < n && events[j] == r[i];
        assert KeyLe(ByTime()(events[j]), ByTime()(events[n]));
      }
    }
  }

  /** With an ordered log the query's sort is the identity. */
  lemma WindowIsFilter(st: TrustStore, payer: string, cutoff: Time)
    requires LogInOrder(st)
    ensures Window(st, payer, cutoff) == Filter(st.events, InWindow(payer, cutoff))
  {
    FilterKeepsOrder(st.events, InWindow(payer, cutoff));
    StableSortIdentity(Filter(st.events, InWindow(payer, cutoff)), ByTime());
  }

  /** What the plotted line ends on. */
  function Plotted(st: TrustStore, payer: string, cutoff: Time): int {
    Replay(DEFAULT_SCORE, Window(st, payer, cutoff))
  }

  /** How far the plotted line is from the cached score. */
  function Gap(st: TrustStore, payer: string, cutoff: Time): int {
    Plotted(st, payer, cutoff) - RawScore(st, payer)
  }

  /** `b` has the sign of `a` (or is zero) and is no farther from zero. */
  ghost predicate Narrowed(a: int, b: int) {
    (0 <= b <= a) || (a <= b <= 0)
  }

  ghost predicate NotBefore(st: TrustStore, now: Time) {
    forall i :: 0 <= i < |st.events| ==> st.events[i].at <= now
  }

  lemma ClampedAdditionsNarrow(a: int, b: int, delta: int)
    ensures Narrowed(a - b, Clamp(a + delta) - Clamp(b + delta))
  {
  }

  lemma PlottedAfter(st: TrustStore, payer: string, cutoff: Time, u: Update)
    requires LogInOrder(st) && NotBefore(st, u.at) && cutoff <= u.at
    ensures var st' := Updated(st, u.payer, u.kind, u.at);
            && LogInOrder(st') && NotBefore(st', u.at)
            && Plotted(st', payer, cutoff) ==
               if u.payer == payer then Clamp(Plotted(st, payer, cutoff) + EventDelta(u.kind))
               else Plotted(st, payer, cutoff)
  {
    var e := Event(u.payer, u.kind, EventDelta(u.kind), u.at);
    var st' := Updated(st, u.payer, u.kind, u.at);
    assert st'.events == st.events + [e];
    assert LogInOrder(st');
    WindowIsFilter(st, payer, cutoff);
    WindowIsFilter(st', payer, cutoff);
    var w := Window(st, payer, cutoff);
    FilterSingle(st.events, e, InWindow(payer, cutoff));
    hide LogInOrder, NotBefore, Window, Filter;
    if u.payer == payer {
      assert Window(st', payer, cutoff) == w + [e];
      assert (w + [e])[..|w|] == w;
    } else {
      assert Window(st', payer, cutoff) == w + [] == w;
    }
  }

  /** One later event narrows the gap. */
  lemma GapNarrowsOnce(st: TrustStore, payer: string, cutoff: Time, u: Update)
    requires LogInOrder(st) && NotBefore(st, u.at) && cutoff <= u.at
    ensures var st' := Updated(st, u.payer, u.kind, u.at);
            && LogInOrder(st') && NotBefore(st', u.at)
            && Narrowed(Gap(st, payer, cutoff), Gap(st', payer, cutoff))
  {
    hide LogInOrder, NotBefore, Plotted;
    PlottedAfter(st, payer, cutoff, u);
    ClampedAdditionsNarrow(Plotted(st, payer, cutoff), RawScore(st, payer), EventDelta(u.kind));
  }

  ghost predicate Chronological(us: seq<Update>, from: Time) {
    us == [] || (from <= us[0].at && Chronological(us[1..], us[0].at))
  }

  /** Over any later run the gap only shrinks towards zero and never changes sign. */
  lemma {:induction false} GapNarrows(st: TrustStore, payer: string, cutoff: Time, us: seq<Update>, from: Time)
    requires LogInOrder(st) && NotBefore(st, from) && cutoff <= from
    requires Chronological(us, from)
    ensures Narrowed(Gap(st, payer, cutoff), Gap(UpdateAll(st, us), payer, cutoff))
    decreases us
  {
    if us != [] {
      GapNarrowsOnce(st, payer, cutoff, us[0]);
      GapNarrows(Updated(st, us[0].payer, us[0].kind, us[0].at), payer, cutoff, us[1..], us[0].at);
    }
  }

  lemma {:induction false} FilterNone(events: seq<Event>, p: Event -> bool)
    requires forall i :: 0 <= i < |events| ==> !p(events[i])
    ensures Filter(events, p) == []
  {
    if events != [] {
      FilterNone(events[..|events| - 1], p);
    }
  }

  /** A plot that starts after the whole log differs from the cache by what the cache had
      drifted from the default; no later run of events makes that difference larger. */
  lemma GapBoundedByScoreAtCutoff(st: TrustStore, payer: string, cutoff: Time, us: seq<Update>)
    requires LogInOrder(st) && CacheAgrees(st)
    requires forall i :: 0 <= i < |st.events| ==> st.events[i].at < cutoff
    requires Chronological(us, cutoff)
    ensures Narrowed(DEFAULT_SCORE - RawScore(st, payer), Gap(UpdateAll(st, us), payer, cutoff))
    ensures payer !in st.rows ==> Gap(UpdateAll(st, us), payer, cutoff) == 0
  {
    WindowIsFilter(st, payer, cutoff);
    FilterNone(st.events, InWindow(payer, cutoff));
    GapNarrows(st, payer, cutoff, us, cutoff);
  }

  /** Once some score on the way is pinned to an end of the range by both lines, they
      coincide for good: a zero gap stays zero. */
  lemma ZeroGapStays(st: TrustStore, payer: string, cutoff: Time, us: seq<Update>, from: Time)
    requires LogInOrder(st) && NotBefore(st, from) && cutoff <= from
    requires Chronological(us, from)
    requires Gap(st, payer, cutoff) == 0
    ensures Gap(UpdateAll(st, us), payer, cutoff) == 0
  {
    GapNarrows(st, payer, cutoff, us, from);
  }

  // ---- When the plot meets the cache ----------------------------------------------------

  function BeforeCutoff(payer: string, cutoff: Time): Event -> bool {
    (e: Event) => e.payer == payer && e.at < cutoff
  }

  /** An ordered log is what lies before the cutoff, then the window. */
  lemma {:induction false} LogSplits(events: seq<Event>, payer: string, cutoff: Time)
    requires SortedBy(events, ByTime())
    ensures Filter(events, OfPayer(payer))
            == Filter(events, BeforeCutoff(payer, cutoff)) + Filter(events, InWindow(payer, cutoff))
  {
    if events != [] {
      var n := |events| - 1;
      LogSplits(events[..n], payer, cutoff);
      if events[n].at < cutoff {
        forall i | 0 <= i < n ensures !InWindow(payer, cutoff)(events[i]) {
          assert KeyLe(ByTime()(events[i]), ByTime()(events[n]));
        }
        FilterNone(events[..n], InWindow(payer, cutoff));
      }
    }
  }

  lemma {:induction false} ReplayConcat(start: int, a: seq<Event>, b: seq<Event>)
    ensures Replay(start, a + b) == Replay(Replay(start, a), b)
  {
    if b == [] {
      assert a + b == a;
    } else {
      ReplayConcat(start, a, b[..|b| - 1]);
      assert (a + b)[..|a + b| - 1] == a + b[..|b| - 1];
    }
  }

  function ScoreAtCutoff(st: TrustStore, payer: string, cutoff: Time): int {
    Replay(DEFAULT_SCORE, Filter(st.events, BeforeCutoff(payer, cutoff)))
  }

  /** The shift sends both scores to the same end of its band. */
  predicate Merges(s: Shift, x: int, y: int) {
    || s.lo == s.hi
    || (x + s.shift <= s.lo && y + s.shift <= s.lo)
    || (x + s.shift >= s.hi && y + s.shift >= s.hi)
  }

  /** The plotted line ends on the cached score exactly when the score at the cutoff was the
      default, or the window drives that score and the default into the same clamp. */
  lemma PlotMeetsCacheIff(st: TrustStore, payer: string, cutoff: Time)
    requires CacheAgrees(st) && LogInOrder(st)
    ensures var atCutoff := ScoreAtCutoff(st, payer, cutoff);
            && Narrowed(DEFAULT_SCORE - atCutoff, Gap(st, payer, cutoff))
            && (Gap(st, payer, cutoff) == 0 <==>
                  atCutoff == DEFAULT_SCORE || Merges(ShiftOf(Window(st, payer, cutoff)), atCutoff, DEFAULT_SCORE))
  {
    hide CacheAgrees, LogInOrder, Window, Filter, ShiftOf, Replay;
    var w, atCutoff := Window(st, payer, cutoff), ScoreAtCutoff(st, payer, cutoff);
    SplitCache(st, payer, cutoff);
    ReplayIsOneShift(DEFAULT_SCORE, w);
    ReplayIsOneShift(DEFAULT_SCORE, Filter(st.events, BeforeCutoff(payer, cutoff)));
    ReplayIsOneShift(atCutoff, w);
  }

  /** The cached score is the window replayed from the score at the cutoff. */
  lemma SplitCache(st: TrustStore, payer: string, cutoff: Time)
    requires CacheAgrees(st) && LogInOrder(st)
    ensures RawScore(st, payer) == Replay(ScoreAtCutoff(st, payer, cutoff), Window(st, payer, cutoff))
  {
    WindowIsFilter(st, payer, cutoff);
    LogSplits(st.events, payer, cutoff);
    ReplayConcat(DEFAULT_SCORE, Filter(st.events, BeforeCutoff(payer, cutoff)), Window(st, payer, cutoff));
    hide Window, Filter, Replay, LogInOrder;
  }

  lemma EmptyStoreAgrees()
    ensures CacheAgrees(EMPTY_STORE) && LogInOrder(Updated(EMPTY_STORE, "p", PromiseKept, 0))
  {
  }

  /** One kept promise before the cutoff already makes the plot miss the cached score. */
  lemma PlotCanMissCache(st: TrustStore)
    requires st == Updated(EMPTY_STORE, "p", PromiseKept, 0)
    ensures CacheAgrees(st) && Gap(st, "p", 1) == -5
  {
    hide CacheAgrees, LogInOrder, Window;
    EmptyStoreAgrees();
    UpdatedKeepsCache(EMPTY_STORE, "p", PromiseKept, 0);
    FilterNone(st.events, InWindow("p", 1));
    WindowIsFilter(st, "p", 1);
  }
}
