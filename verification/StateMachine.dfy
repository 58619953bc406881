/** The (phase, tone) personality of a collections call and how signals move it. */
module StateMachine {
  import opened Common

  datatype Phase = FriendlyReminder | FirmFollowup | Escalation | PreLegal | Paused

  datatype Tone = Warm | Professional | Firm | Cold

  datatype Signal =
    | HostileSentiment | PositiveResponse | DisputeMentioned | ManagerRequested
    | HesitationDetected | PaymentCommitted | BankruptcyMentioned

  datatype Reason =
    | ActivePromise | FromContext | BankruptcyWhilePaused | Hostile | Positive
    | CommitmentReceived | Bankruptcy | Dispute | Manager | Hesitation

  datatype State = State(phase: Phase, tone: Tone, reason: Reason)

  datatype PayerContext = PayerContext(trust: real, daysOverdue: int, brokenPromises: int, hasActivePromise: bool)

  const TONE_LADDER: seq<Tone> := [Cold, Firm, Professional, Warm]

  /** Position on the ladder, cold to warm. */
  function Warmth(tone: Tone): (i: nat)
    ensures i < |TONE_LADDER| && TONE_LADDER[i] == tone
  {
    match tone
    case Cold => 0
    case Firm => 1
    case Professional => 2
    case Warm => 3
  }

  function Soften(tone: Tone): Tone {
    TONE_LADDER[Min(Warmth(tone) + 1, |TONE_LADDER| - 1)]
  }

  function InitialPhase(ctx: PayerContext): Phase {
    if ctx.brokenPromises >= 2 then (if ctx.daysOverdue >= 60 then PreLegal else Escalation)
    else if ctx.daysOverdue >= 60 then PreLegal
    else if ctx.brokenPromises >= 1 && ctx.daysOverdue >= 30 then PreLegal
    else if ctx.daysOverdue >= 30 then Escalation
    else if ctx.daysOverdue >= 8 || ctx.brokenPromises >= 1 then FirmFollowup
    else FriendlyReminder
  }

  function InitialTone(ctx: PayerContext, phase: Phase): Tone {
    if phase == PreLegal then (if ctx.trust < 0.40 then Cold else Firm)
    else if phase == Escalation then (if ctx.trust < 0.60 then Firm else Professional)
    else if ctx.trust >= 0.85 then Warm
    else if ctx.trust >= 0.65 then Professional
    else if ctx.trust >= 0.45 then (if phase == FirmFollowup then Firm else Professional)
    else if ctx.trust >= 0.25 then Firm
    else Cold
  }

  function InitialState(ctx: PayerContext): State {
    if ctx.hasActivePromise then State(Paused, Professional, ActivePromise)
    else
      var phase := InitialPhase(ctx);
      State(phase, InitialTone(ctx, phase), FromContext)
  }

  function Transition(state: State, signal: Signal): State {
    if state.phase == Paused then
      if signal == BankruptcyMentioned then State(PreLegal, Firm, BankruptcyWhilePaused) else state
    else match signal
      case HostileSentiment => State(state.phase, Soften(state.tone), Hostile)
      case PositiveResponse => State(state.phase, Soften(state.tone), Positive)
      case PaymentCommitted => State(Paused, Professional, CommitmentReceived)
      case BankruptcyMentioned => State(PreLegal, Professional, Bankruptcy)
      case DisputeMentioned => State(state.phase, state.tone, Dispute)
      case ManagerRequested => State(state.phase, state.tone, Manager)
      case HesitationDetected => State(state.phase, state.tone, Hesitation)
  }

  datatype LogEntry = LogEntry(signal: Signal, before: State, after: State)

  /** The state after a list of signals, applied in order. */
  function Apply(state: State, signals: seq<Signal>): State {
    if signals == [] then state
    else Transition(Apply(state, signals[..|signals| - 1]), signals[|signals| - 1])
  }

  /** The log lines those signals add. */
  function LogOf(state: State, signals: seq<Signal>): seq<LogEntry> {
    if signals == [] then []
    else
      var n := |signals| - 1;
      var before := Apply(state, signals[..n]);
      LogOf(state, signals[..n]) + [LogEntry(signals[n], before, Transition(before, signals[n]))]
  }

  method ApplySignals(callState: State, signals: seq<Signal>, transitionLog: seq<LogEntry>)
    returns (current: State, log: seq<LogEntry>)
    ensures current == Apply(callState, signals)
    ensures log == transitionLog + LogOf(callState, signals)
  {
    current := callState;
    log := transitionLog;
    for i := 0 to |signals|
      invariant current == Apply(callState, signals[..i])
      invariant log == transitionLog + LogOf(callState, signals[..i])
    {
      assert signals[..i + 1][..i] == signals[..i];
      var next := Transition(current, signals[i]);
      log := log + [LogEntry(signals[i], current, next)];
      current := next;
    }
    assert signals[..|signals|] == signals;
  }

  // ---- Closed form of a call ----------------------------------------------------------

  predicate Decisive(signal: Signal) {
    signal == PaymentCommitted || signal == BankruptcyMentioned
  }

  predicate Softening(signal: Signal) {
    signal == HostileSentiment || signal == PositiveResponse
  }

  /** Position of the last commitment or bankruptcy. */
  function LastDecisive(signals: seq<Signal>): (r: Option<nat>)
    ensures r.Some? ==>
              && r.value < |signals| && Decisive(signals[r.value])
              && forall k :: r.value < k < |signals| ==> !Decisive(signals[k])
    ensures r.None? ==> forall k :: 0 <= k < |signals| ==> !Decisive(signals[k])
  {
    if signals == [] then None
    else
      var n := |signals| - 1;
      if Decisive(signals[n]) then Some(n) else LastDecisive(signals[..n])
  }

  function Softenings(signals: seq<Signal>): nat {
    if signals == [] then 0
    else Softenings(signals[..|signals| - 1]) + Ind(Softening(signals[|signals| - 1]))
  }

  /** Only the last decisive signal matters for the phase. */
  function PhaseAfter(start: Phase, signals: seq<Signal>): Phase {
    var i := LastDecisive(signals);
    if i.None? then start
    else if signals[i.value] == PaymentCommitted then Paused
    else PreLegal
  }

  /** Where softening starts counting from. */
  function BaseWarmth(start: State, signals: seq<Signal>): nat {
    var i := LastDecisive(signals);
    if i.None? then Warmth(start.tone)
    else if signals[i.value] == PaymentCommitted then Warmth(Professional)
    else if PhaseAfter(start.phase, signals[..i.value]) == Paused then Warmth(Firm)
    else Warmth(Professional)
  }

  /** What softens: everything after the last decisive signal, unless the call is paused. */
  function SofteningsAfter(start: State, signals: seq<Signal>): nat {
    var i := LastDecisive(signals);
    if PhaseAfter(start.phase, signals) == Paused then 0
    else if i.None? then Softenings(signals)
    else Softenings(signals[i.value + 1..])
  }

  /** Every state of a real call: a paused call speaks professionally. */
  predicate PausedIsProfessional(state: State) {
    state.phase == Paused ==> state.tone == Professional
  }

  /** Phase and tone after any list of signals, without replaying it: the last commitment or
      bankruptcy fixes the phase; the tone is its base plus the softenings since, capped. */
  lemma {:induction false} CallClosedForm(start: State, signals: seq<Signal>)
    requires PausedIsProfessional(start)
    ensures var end := Apply(start, signals);
            && PausedIsProfessional(end)
            && end.phase == PhaseAfter(start.phase, signals)
            && Warmth(end.tone) == Min(3, BaseWarmth(start, signals) + SofteningsAfter(start, signals))
  {
    if signals != [] {
      var n := |signals| - 1;
      var front, last := signals[..n], signals[n];
      CallClosedForm(start, front);
      if Decisive(last) {
        assert signals[n + 1..] == [];
      } else {
        QuietSignal(start, signals);
        hide PhaseAfter, BaseWarmth, SofteningsAfter;
      }
    }
  }

  /** A signal that is not decisive only counts as a softening, and only while not paused. */
  lemma QuietSignal(start: State, signals: seq<Signal>)
    requires signals != [] && !Decisive(signals[|signals| - 1])
    ensures var front, last := signals[..|signals| - 1], signals[|signals| - 1];
            && PhaseAfter(start.phase, signals) == PhaseAfter(start.phase, front)
            && BaseWarmth(start, signals) == BaseWarmth(start, front)
            && SofteningsAfter(start, signals)
               == SofteningsAfter(start, front) + Ind(PhaseAfter(start.phase, front) != Paused && Softening(last))
  {
    var n := |signals| - 1;
    var front := signals[..n];
    var i := LastDecisive(front);
    assert LastDecisive(signals) == i;
    if i.Some? {
      assert front[..i.value] == signals[..i.value];
      assert signals[i.value + 1..][..n - i.value - 1] == front[i.value + 1..];
    }
  }

  /** Calls start in a state the closed form covers, with late phases never warm. */
  lemma InitialStateIsProper(ctx: PayerContext)
    ensures PausedIsProfessional(InitialState(ctx))
    ensures InitialState(ctx).phase == Paused <==> ctx.hasActivePromise
    ensures InitialState(ctx).phase in {PreLegal, Escalation} ==> InitialState(ctx).tone != Warm
  {
  }

  /** How far along the dunning lifecycle a starting phase is. */
  function Severity(phase: Phase): nat {
    match phase
    case FriendlyReminder => 0
    case FirmFollowup => 1
    case Escalation => 2
    case PreLegal => 3
    case Paused => 0
  }

  function SeverityOf(daysOverdue: int, brokenPromises: int): nat {
    Severity(InitialPhase(PayerContext(0.5, daysOverdue, brokenPromises, false)))
  }

  /** Each starting phase, as a region of days overdue and broken promises. */
  lemma InitialPhaseExact(ctx: PayerContext)
    requires !ctx.hasActivePromise
    ensures var phase, days, broken := InitialState(ctx).phase, ctx.daysOverdue, ctx.brokenPromises;
            && (phase == PreLegal <==> days >= 60 || (broken == 1 && days >= 30))
            && (phase == Escalation <==> days < 60 && (broken >= 2 || (broken <= 0 && days >= 30)))
            && (phase == FirmFollowup <==> days < 30 && broken <= 1 && (days >= 8 || broken == 1))
            && (phase == FriendlyReminder <==> days < 8 && broken <= 0)
            && Severity(phase) == SeverityOf(days, broken)
  {
  }

  /** More days overdue never soften the starting phase. More broken promises do in one place: from
      30 to 59 days, a second broken promise turns PRE_LEGAL into ESCALATION. */
  lemma SeverityGrowsIff(days1: int, days2: int, broken1: int, broken2: int)
    requires days1 <= days2 && broken1 <= broken2
    ensures SeverityOf(days1, broken1) <= SeverityOf(days2, broken1)
    ensures SeverityOf(days1, broken1) <= SeverityOf(days1, broken2)
            <==> !(broken1 == 1 && broken2 >= 2 && 30 <= days1 < 60)
  {
    InitialPhaseExact(PayerContext(0.5, days1, broken1, false));
    InitialPhaseExact(PayerContext(0.5, days2, broken1, false));
    InitialPhaseExact(PayerContext(0.5, days1, broken2, false));
  }

  /** The starting tone counts the trust levels reached: three in the early phases, one later. */
  lemma InitialToneExact(ctx: PayerContext)
    requires !ctx.hasActivePromise
    ensures var state, t := InitialState(ctx), ctx.trust;
            Warmth(state.tone)
            == if state.phase == PreLegal then Ind(t >= 0.40)
               else if state.phase == Escalation then 1 + Ind(t >= 0.60)
               else if state.phase == FirmFollowup then Ind(t >= 0.25) + Ind(t >= 0.65) + Ind(t >= 0.85)
               else Ind(t >= 0.25) + Ind(t >= 0.45) + Ind(t >= 0.85)
  {
  }

  /** More trust never makes a call start colder, and never changes its phase. */
  lemma TrustWarms(ctx: PayerContext, trust: real)
    requires ctx.trust <= trust
    ensures var trusted := InitialState(ctx.(trust := trust));
            trusted.phase == InitialState(ctx).phase && Warmth(InitialState(ctx).tone) <= Warmth(trusted.tone)
  {
    if !ctx.hasActivePromise {
      InitialToneExact(ctx);
      InitialToneExact(ctx.(trust := trust));
    }
  }

  /** A paused call is left only by bankruptcy, and the two late phases are never left. */
  lemma LatePhasesAreClosed(start: State, signals: seq<Signal>)
    requires PausedIsProfessional(start)
    ensures start.phase == Paused && BankruptcyMentioned !in signals ==> Apply(start, signals) == start
    ensures start.phase in {PreLegal, Paused} ==> Apply(start, signals).phase in {PreLegal, Paused}
  {
    CallClosedForm(start, signals);
    if start.phase == Paused && BankruptcyMentioned !in signals {
      PausedStays(start, signals);
    }
  }

  lemma {:induction false} PausedStays(start: State, signals: seq<Signal>)
    requires start.phase == Paused && BankruptcyMentioned !in signals
    ensures Apply(start, signals) == start
  {
    if signals != [] {
      PausedStays(start, signals[..|signals| - 1]);
    }
  }

  /** Every log line names the reason its signal has, unless the call was paused and stayed so. */
  lemma {:induction false} LogGivesReasons(state: State, signals: seq<Signal>, i: nat)
    requires i < |LogOf(state, signals)|
    ensures var e := LogOf(state, signals)[i];
            && (e.before.phase == Paused && e.signal != BankruptcyMentioned ==> e.after == e.before)
            && (e.before.phase == Paused && e.signal == BankruptcyMentioned ==> e.after.reason == BankruptcyWhilePaused)
            && (e.before.phase != Paused ==>
                  && (e.after.reason == Hostile <==> e.signal == HostileSentiment)
                  && (e.after.reason == Positive <==> e.signal == PositiveResponse)
                  && (e.after.reason == CommitmentReceived <==> e.signal == PaymentCommitted)
                  && (e.after.reason == Bankruptcy <==> e.signal == BankruptcyMentioned)
                  && (e.after.reason == Dispute <==> e.signal == DisputeMentioned)
                  && (e.after.reason == Manager <==> e.signal == ManagerRequested)
                  && (e.after.reason == Hesitation <==> e.signal == HesitationDetected))
  {
    var n := |signals| - 1;
    LogLength(state, signals);
    LogLength(state, signals[..n]);
    if i < n {
      LogGivesReasons(state, signals[..n], i);
    }
  }

  // ---- Concatenation ------------------------------------------------------------------

  lemma {:induction false} ApplyConcat(state: State, a: seq<Signal>, b: seq<Signal>)
    ensures Apply(state, a + b) == Apply(Apply(state, a), b)
    ensures LogOf(state, a + b) == LogOf(state, a) + LogOf(Apply(state, a), b)
  {
    if b == [] {
      assert a + b == a;
    } else {
      var n := |b| - 1;
      ApplyConcat(state, a, b[..n]);
      assert (a + b)[..|a + b| - 1] == a + b[..n];
    }
  }

  lemma {:induction false} LogLength(state: State, signals: seq<Signal>)
    ensures |LogOf(state, signals)| == |signals|
    ensures forall i :: 0 <= i < |signals| ==> LogOf(state, signals)[i].signal == signals[i]
  {
    if signals != [] {
      LogLength(state, signals[..|signals| - 1]);
    }
  }
}
