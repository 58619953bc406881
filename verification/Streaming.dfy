/** The streaming path answers on hard signals alone and folds the soft one in from a background
    task. A session between turns is its state and log; the listener is a function of the text. */
module Streaming {
  import opened Common
  import opened StateMachine
  import opened Signals
  import opened TurnGraph
  import opened Compliance

  datatype Session = Session(callState: State, log: seq<LogEntry>)

  function Moved(s: Session, signals: seq<Signal>): Session {
    Session(Apply(s.callState, signals), s.log + LogOf(s.callState, signals))
  }

  /** The synchronous path: both passes, then the branch. */
  function SyncTurn(ear: Listener, s: Session, message: string): (Session, Branch) {
    var signals := AllSignals(ear, message);
    (Moved(s, signals), DecideBranch(signals))
  }

  /** The latency-critical part of a streamed turn. */
  function FastTurn(ear: Listener, s: Session, message: string): (Session, Branch) {
    var signals := HardSignals(ear, message);
    (Moved(s, signals), DecideBranch(signals))
  }

  /** The background task of that turn, run against the session it finds. */
  function SoftTask(ear: Listener, s: Session, message: string): Session {
    Moved(s, AsList(SoftSignal(ear, message, HardSignals(ear, message))))
  }

  // ---- The session object -------------------------------------------------------------

  datatype ComplianceNote =
    | NotChecked
    | PendingCheck(branch: Branch, text: string)
    | Checked(verdict: Verdict, rationale: string, branch: Branch, text: string)
    | CheckFailed(rationale: string, branch: Branch, text: string)

  /** What came of the review: a result, or an exception. */
  datatype Review = Reviewed(result: ComplianceResult) | Raised(message: string)

  class CallSession {
    var callState: State
    var transitionLog: seq<LogEntry>
    var history: seq<(string, string)>
    var lastCompliance: ComplianceNote

    constructor (start: State)
      ensures Now() == Session(start, []) && history == [] && lastCompliance == NotChecked
    {
      callState, transitionLog, history, lastCompliance := start, [], [], NotChecked;
    }

    function Now(): Session
      reads this
    {
      Session(callState, transitionLog)
    }

    /** One non-streaming request: the graph runs to its end, then the session is updated. */
    method Chat(m: Models, maxRetries: nat, message: string)
      returns (answer: string, branch: Branch, checks: nat)
      modifies this
      ensures (Now(), branch) == SyncTurn(m.ear, old(Now()), message)
      ensures history == old(history) + [("user", message), ("assistant", answer)]
      ensures lastCompliance == old(lastCompliance)
      ensures Routes(m.ear, message, branch)
      ensures Outcome(m, maxRetries, branch, callState, answer, checks)
    {
      hide AllSignals, Apply, LogOf, DecideBranch, Outcome;
      var t := RunTurn(m, maxRetries, message, callState, transitionLog);
      callState := t.callState;
      transitionLog := t.transitionLog;
      history := history + [("user", message)];
      history := history + [("assistant", t.finalResponse)];
      answer, branch, checks := t.finalResponse, t.branch, t.checks;
    }

    /** What a streaming request computes before it streams; the session is only read. */
    method StartStream(ear: Listener, message: string) returns (pre: Session, branch: Branch)
      ensures (pre, branch) == FastTurn(ear, Now(), message)
      ensures Routes(ear, message, branch)
    {
      BranchExact(ear, message);
      var signals := HardSignals(ear, message);
      var state, log := ApplySignals(callState, signals, transitionLog);
      branch := DecideBranch(signals);
      pre := Session(state, log);
    }

    /** What it stores once the stream has ended or failed, over whatever the session holds by
        then; `text` is what was streamed so far. */
    method FinishStream(pre: Session, branch: Branch, message: string, text: string)
      modifies this
      ensures Now() == pre
      ensures history == old(history) + [("user", message), ("assistant", text)]
      ensures lastCompliance == PendingCheck(branch, text)
    {
      callState := pre.callState;
      transitionLog := pre.log;
      history := history + [("user", message)] + [("assistant", text)];
      lastCompliance := PendingCheck(branch, text);
    }

    /** A streaming request that nothing interrupts; `reply` is what the model streams before it
        ends or fails. */
    method StreamingChat(ear: Listener, message: string, reply: State -> string) returns (text: string, branch: Branch)
      modifies this
      ensures (Now(), branch) == FastTurn(ear, old(Now()), message)
      ensures Routes(ear, message, branch)
      ensures text == (if branch == Handoff then CANNED_HANDOFF
                       else if branch == DisputeBranch then CANNED_DISPUTE
                       else if branch == Callback then CANNED_CALLBACK
                       else reply(callState))
      ensures history == old(history) + [("user", message), ("assistant", text)]
      ensures lastCompliance == PendingCheck(branch, text)
    {
      hide HardSignals, Apply, LogOf, DecideBranch;
      var pre: Session;
      pre, branch := StartStream(ear, message);
      text := if branch == Respond then reply(pre.callState) else Canned(branch);
      FinishStream(pre, branch, message, text);
    }

    /** The background sentiment task of a streamed turn. */
    method AsyncSoftSentiment(ear: Listener, message: string)
      modifies this`callState, this`transitionLog
      ensures Now() == SoftTask(ear, old(Now()), message)
      // In terms of matches and mood: whether it is heard, and one step softer if the call is not paused.
      ensures var mood := ear.sentiment(message);
              var heard := && !ear.matches(message, BankruptcyMentioned) && !ear.matches(message, DisputeMentioned)
                           && !ear.matches(message, ManagerRequested) && !ear.matches(message, PaymentCommitted)
                           && mood.confidence >= 0.6 && mood.sentiment != NeutralMood;
              && |transitionLog| == |old(transitionLog)| + Ind(heard)
              && callState.phase == old(callState.phase)
              && (heard && callState.phase != Paused ==>
                    && Warmth(callState.tone) == Min(3, Warmth(old(callState.tone)) + 1)
                    && callState.reason == if mood.sentiment == HostileMood then Hostile else Positive)
              && (!heard || callState.phase == Paused ==> callState == old(callState))
    {
      SoftSignalExact(ear, message);
      var soft := SoftSignal(ear, message, HardSignals(ear, message));
      if soft.None? {
        assert transitionLog + [] == transitionLog;
        return;
      }
      ghost var before := Now();
      callState, transitionLog := ApplySignals(callState, [soft.value], transitionLog);
      OneSignal(before.callState, soft.value);
    }

    /** The background compliance task: observes, never changes the call, and records a failed
        review as such. */
    method AsyncCompliance(review: Review, branch: Branch, text: string)
      modifies this`lastCompliance
      ensures review.Reviewed? ==>
                lastCompliance == Checked(review.result.verdict, review.result.rationale, branch, text)
      ensures review.Raised? ==>
                lastCompliance == CheckFailed("compliance check raised: " + review.message, branch, text)
    {
      match review {
        case Reviewed(r) => lastCompliance := Checked(r.verdict, r.rationale, branch, text);
        case Raised(message) => lastCompliance := CheckFailed("compliance check raised: " + message, branch, text);
      }
    }
  }

  function Canned(branch: Branch): string
    requires branch != Respond
  {
    match branch
    case DisputeBranch => CANNED_DISPUTE
    case Callback => CANNED_CALLBACK
    case Handoff => CANNED_HANDOFF
  }

  lemma OneSignal(state: State, signal: Signal)
    ensures Apply(state, [signal]) == Transition(state, signal)
    ensures |LogOf(state, [signal])| == 1
  {
    assert [signal][..0] == [];
  }

  // ---- Refinement ---------------------------------------------------------------------

  lemma MovedConcat(s: Session, a: seq<Signal>, b: seq<Signal>)
    ensures Moved(s, a + b) == Moved(Moved(s, a), b)
  {
    ApplyConcat(s.callState, a, b);
  }

  /** If its background task finishes first, a streamed turn is a synchronous turn. */
  lemma OneTurnRefines(ear: Listener, s: Session, message: string)
    ensures var (fast, branch) := FastTurn(ear, s, message);
            (SoftTask(ear, fast, message), branch) == SyncTurn(ear, s, message)
  {
    var hard := HardSignals(ear, message);
    MovedConcat(s, hard, AsList(SoftSignal(ear, message, hard)));
    SoftNeverRoutes(ear, message);
  }

  function SyncCall(ear: Listener, s: Session, messages: seq<string>): (Session, seq<Branch>) {
    if messages == [] then (s, [])
    else
      var n := |messages| - 1;
      var (before, branches) := SyncCall(ear, s, messages[..n]);
      var (after, branch) := SyncTurn(ear, before, messages[n]);
      (after, branches + [branch])
  }

  /** Every background task lands before the next turn starts. */
  function StreamedCall(ear: Listener, s: Session, messages: seq<string>): (Session, seq<Branch>) {
    if messages == [] then (s, [])
    else
      var n := |messages| - 1;
      var (before, branches) := StreamedCall(ear, s, messages[..n]);
      var (fast, branch) := FastTurn(ear, before, messages[n]);
      (SoftTask(ear, fast, messages[n]), branches + [branch])
  }

  /** Over a whole conversation: the same branch on every turn, and the same state and log at
      every point between turns (take any prefix of the messages). */
  lemma {:induction false} StreamingRefinesSync(ear: Listener, s: Session, messages: seq<string>)
    ensures StreamedCall(ear, s, messages) == SyncCall(ear, s, messages)
  {
    if messages != [] {
      var n := |messages| - 1;
      StreamingRefinesSync(ear, s, messages[..n]);
      OneTurnRefines(ear, SyncCall(ear, s, messages[..n]).0, messages[n]);
    }
  }

  // ---- Every interleaving ---------------------------------------------------------------

  /** What may happen to a session: a streamed turn starts from the state it finds; a started turn
      ends and stores what it computed then, over whatever is there; a background task lands; a
      request that is not streamed runs in one go. */
  datatype Event = Begin(message: string) | Finish(turn: nat) | Land(message: string) | Request(message: string)

  datatype Line = Line(session: Session, inFlight: seq<Session>)

  function Happen(ear: Listener, line: Line, e: Event): Line {
    match e
    case Begin(message) => line.(inFlight := line.inFlight + [FastTurn(ear, line.session, message).0])
    case Finish(turn) => if turn < |line.inFlight| then line.(session := line.inFlight[turn]) else line
    case Land(message) => line.(session := SoftTask(ear, line.session, message))
    case Request(message) => line.(session := SyncTurn(ear, line.session, message).0)
  }

  function HappenAll(ear: Listener, line: Line, events: seq<Event>): Line {
    if events == [] then line
    else Happen(ear, HappenAll(ear, line, events[..|events| - 1]), events[|events| - 1])
  }

  function SoftOf(ear: Listener, message: string): Option<Signal> {
    SoftSignal(ear, message, HardSignals(ear, message))
  }

  /** The signals a session still shows, and those each turn in flight will leave it with. */
  datatype Kept = Kept(signals: seq<Signal>, inFlight: seq<seq<Signal>>)

  function Keep(ear: Listener, k: Kept, e: Event): Kept {
    match e
    case Begin(message) => k.(inFlight := k.inFlight + [k.signals + HardSignals(ear, message)])
    case Finish(turn) => if turn < |k.inFlight| then k.(signals := k.inFlight[turn]) else k
    case Land(message) => k.(signals := k.signals + AsList(SoftOf(ear, message)))
    case Request(message) => k.(signals := k.signals + AllSignals(ear, message))
  }

  function KeepAll(ear: Listener, events: seq<Event>): Kept {
    if events == [] then Kept([], [])
    else Keep(ear, KeepAll(ear, events[..|events| - 1]), events[|events| - 1])
  }

  /** The signals that survive a schedule. */
  function Surviving(ear: Listener, events: seq<Event>): seq<Signal> {
    KeepAll(ear, events).signals
  }

  /** The session and every turn in flight are what those signals make of the start. */
  ghost predicate Explains(s: Session, k: Kept, line: Line) {
    && line.session == Moved(s, k.signals)
    && |line.inFlight| == |k.inFlight|
    && forall i :: 0 <= i < |k.inFlight| ==> line.inFlight[i] == Moved(s, k.inFlight[i])
  }

  lemma KeepExplains(ear: Listener, s: Session, k: Kept, line: Line, e: Event)
    requires Explains(s, k, line)
    ensures Explains(s, Keep(ear, k, e), Happen(ear, line, e))
  {
    hide Moved, HardSignals, SoftSignal, DecideBranch;
    match e {
      case Begin(message) => MovedConcat(s, k.signals, HardSignals(ear, message));
      case Finish(_) =>
      case Land(message) => MovedConcat(s, k.signals, AsList(SoftOf(ear, message)));
      case Request(message) => MovedConcat(s, k.signals, AllSignals(ear, message));
    }
  }

  /** However turns, tasks and plain requests overlap, the session is the start moved by the
      signals that survive. */
  lemma {:induction false} SessionIsSurvivors(ear: Listener, s: Session, events: seq<Event>)
    ensures Explains(s, KeepAll(ear, events), HappenAll(ear, Line(s, []), events))
  {
    if events == [] {
      MovedByNothing(s);
    } else {
      SessionIsSurvivors(ear, s, events[..|events| - 1]);
      KeepExplains(ear, s, KeepAll(ear, events[..|events| - 1]),
                   HappenAll(ear, Line(s, []), events[..|events| - 1]), events[|events| - 1]);
      hide Moved, Keep, Happen, Explains;
    }
  }

  lemma MovedByNothing(s: Session)
    ensures Moved(s, []) == s
  {
    assert s.log + [] == s.log;
  }

  lemma LogGrows(s: Session, signals: seq<Signal>)
    ensures Moved(s, signals).log[..|s.log|] == s.log
    ensures |Moved(s, signals).log| == |s.log| + |signals|
    ensures forall i :: 0 <= i < |signals| ==> Moved(s, signals).log[|s.log| + i].signal == signals[i]
  {
    LogLength(s.callState, signals);
  }

  /** The log spells out the signals, so different signals leave different sessions. */
  lemma MovedIsInjective(s: Session, a: seq<Signal>, b: seq<Signal>)
    ensures Moved(s, a) == Moved(s, b) <==> a == b
  {
    LogGrows(s, a);
    LogGrows(s, b);
    hide Apply, LogOf, Moved;
    if Moved(s, a) == Moved(s, b) {
      forall i | 0 <= i < |a| ensures a[i] == b[i] {
        assert Moved(s, a).log[|s.log| + i].signal == a[i];
      }
      assert |a| == |b|;
    }
  }

  /** All the signals of a conversation, turn by turn. */
  function Spoken(ear: Listener, messages: seq<string>): seq<Signal> {
    if messages == [] then []
    else
      var n := |messages| - 1;
      Spoken(ear, messages[..n]) + AllSignals(ear, messages[n])
  }

  lemma {:induction false} SyncCallMoves(ear: Listener, s: Session, messages: seq<string>)
    ensures SyncCall(ear, s, messages).0 == Moved(s, Spoken(ear, messages))
  {
    if messages == [] {
      MovedByNothing(s);
    } else {
      var n := |messages| - 1;
      SyncCallMoves(ear, s, messages[..n]);
      MovedConcat(s, Spoken(ear, messages[..n]), AllSignals(ear, messages[n]));
      hide Moved, AllSignals, DecideBranch;
    }
  }

  /** Exactly when a schedule ends where the synchronous path does, for every schedule and every
      conversation: when the surviving signals are the spoken ones. */
  lemma AgreesIffNothingLost(ear: Listener, s: Session, events: seq<Event>, messages: seq<string>)
    ensures HappenAll(ear, Line(s, []), events).session == SyncCall(ear, s, messages).0
            <==> Surviving(ear, events) == Spoken(ear, messages)
  {
    SessionIsSurvivors(ear, s, events);
    SyncCallMoves(ear, s, messages);
    MovedIsInjective(s, Surviving(ear, events), Spoken(ear, messages));
    hide Moved;
  }

  function SignalsOf(log: seq<LogEntry>): seq<Signal> {
    seq(|log|, i requires 0 <= i < |log| => log[i].signal)
  }

  /** The state is what replaying the logged signals from the start of the call gives, and every
      log line tells the truth about its step. */
  ghost predicate Coherent(start: State, s: Session) {
    s == Moved(Session(start, []), SignalsOf(s.log))
  }

  /** Updates may be lost but the log never lies: state and log are always stored together. */
  lemma LogNeverLies(ear: Listener, start: State, events: seq<Event>)
    ensures Coherent(start, HappenAll(ear, Line(Session(start, []), []), events).session)
  {
    var origin := Session(start, []);
    SessionIsSurvivors(ear, origin, events);
    LogGrows(origin, Surviving(ear, events));
    hide Moved;
    assert SignalsOf(Moved(origin, Surviving(ear, events)).log) == Surviving(ear, events);
  }

  // ---- Schedules ------------------------------------------------------------------------

  /** The schedule in which every turn ends and its task lands before the next turn starts. */
  function Prompt(messages: seq<string>): seq<Event> {
    if messages == [] then []
    else
      var n := |messages| - 1;
      Prompt(messages[..n]) + [Begin(messages[n])] + [Finish(n)] + [Land(messages[n])]
  }

  lemma KeepOneMore(ear: Listener, events: seq<Event>, e: Event)
    ensures KeepAll(ear, events + [e]) == Keep(ear, KeepAll(ear, events), e)
  {
    assert (events + [e])[..|events|] == events;
  }

  /** Of all interleavings, the prompt one loses nothing and ends where the synchronous path ends. */
  lemma {:induction false} PromptRunIsSync(ear: Listener, s: Session, messages: seq<string>)
    ensures Surviving(ear, Prompt(messages)) == Spoken(ear, messages)
    ensures |KeepAll(ear, Prompt(messages)).inFlight| == |messages|
    ensures HappenAll(ear, Line(s, []), Prompt(messages)).session == SyncCall(ear, s, messages).0
  {
    hide HappenAll, SyncCall, HardSignals, SoftSignal;
    if messages != [] {
      var n := |messages| - 1;
      var front, last := Prompt(messages[..n]), messages[n];
      PromptRunIsSync(ear, s, messages[..n]);
      KeepOneMore(ear, front, Begin(last));
      KeepOneMore(ear, front + [Begin(last)], Finish(n));
      KeepOneMore(ear, front + [Begin(last)] + [Finish(n)], Land(last));
      var spoken := Spoken(ear, messages[..n]);
      assert spoken + HardSignals(ear, last) + AsList(SoftOf(ear, last)) == spoken + AllSignals(ear, last);
    }
    AgreesIffNothingLost(ear, s, Prompt(messages), messages);
  }

  /** The first turn's task lands while the second streams, and the second then stores what it
      computed before. */
  function MidTurn(m1: string, m2: string): seq<Event> {
    [Begin(m1)] + [Finish(0)] + [Begin(m2)] + [Land(m1)] + [Finish(1)] + [Land(m2)]
  }

  /** The first turn's task lands after the second turn's update and before its task. */
  function OneTurnLate(m1: string, m2: string): seq<Event> {
    [Begin(m1)] + [Finish(0)] + [Begin(m2)] + [Finish(1)] + [Land(m1)] + [Land(m2)]
  }

  lemma SpokenInTwo(ear: Listener, m1: string, m2: string)
    ensures Spoken(ear, [m1, m2])
            == HardSignals(ear, m1) + AsList(SoftOf(ear, m1)) + (HardSignals(ear, m2) + AsList(SoftOf(ear, m2)))
  {
    hide HardSignals, SoftSignal;
    assert [m1, m2][..1] == [m1] && [m1][..0] == [];
    assert Spoken(ear, [m1]) == AllSignals(ear, m1);
  }

  lemma KeepNothing(ear: Listener)
    ensures KeepAll(ear, []) == Kept([], [])
  {
  }

  /** The first three events of both schedules leave the second turn's hard signals in flight. */
  lemma TwoTurnsStarted(ear: Listener, m1: string, m2: string)
    ensures KeepAll(ear, [Begin(m1)] + [Finish(0)] + [Begin(m2)])
            == Kept(HardSignals(ear, m1), [HardSignals(ear, m1), HardSignals(ear, m1) + HardSignals(ear, m2)])
  {
    var hard1 := HardSignals(ear, m1);
    hide HardSignals, KeepAll;
    KeepNothing(ear);
    KeepOneMore(ear, [], Begin(m1));
    assert [] + [Begin(m1)] == [Begin(m1)] && [] + hard1 == hard1;
    KeepOneMore(ear, [Begin(m1)], Finish(0));
    assert KeepAll(ear, [Begin(m1)]) == Kept([], [hard1]);
    KeepOneMore(ear, [Begin(m1)] + [Finish(0)], Begin(m2));
  }

  lemma SurvivingMidTurn(ear: Listener, m1: string, m2: string)
    ensures Surviving(ear, MidTurn(m1, m2)) == HardSignals(ear, m1) + HardSignals(ear, m2) + AsList(SoftOf(ear, m2))
  {
    hide HardSignals, SoftSignal, KeepAll;
    TwoTurnsStarted(ear, m1, m2);
    var started := [Begin(m1)] + [Finish(0)] + [Begin(m2)];
    KeepOneMore(ear, started, Land(m1));
    KeepOneMore(ear, started + [Land(m1)], Finish(1));
    KeepOneMore(ear, started + [Land(m1)] + [Finish(1)], Land(m2));
  }

  lemma SurvivingOneTurnLate(ear: Listener, m1: string, m2: string)
    ensures Surviving(ear, OneTurnLate(m1, m2))
            == HardSignals(ear, m1) + HardSignals(ear, m2) + AsList(SoftOf(ear, m1)) + AsList(SoftOf(ear, m2))
  {
    hide HardSignals, SoftSignal, KeepAll;
    TwoTurnsStarted(ear, m1, m2);
    var started := [Begin(m1)] + [Finish(0)] + [Begin(m2)];
    KeepOneMore(ear, started, Finish(1));
    KeepOneMore(ear, started + [Finish(1)], Land(m1));
    KeepOneMore(ear, started + [Finish(1)] + [Land(m1)], Land(m2));
  }

  /** A task that lands mid-turn is harmless exactly when it found no soft signal: otherwise the
      turn that ends after it overwrites its transition. */
  lemma MidTurnLandingIsLost(ear: Listener, s: Session, m1: string, m2: string)
    ensures HappenAll(ear, Line(s, []), MidTurn(m1, m2)).session == SyncCall(ear, s, [m1, m2]).0
            <==> SoftOf(ear, m1).None?
  {
    hide HappenAll, SyncCall, Surviving, HardSignals, SoftSignal;
    AgreesIffNothingLost(ear, s, MidTurn(m1, m2), [m1, m2]);
    SurvivingMidTurn(ear, m1, m2);
    SpokenInTwo(ear, m1, m2);
    var hard1, hard2, soft2 := HardSignals(ear, m1), HardSignals(ear, m2), AsList(SoftOf(ear, m2));
    if SoftOf(ear, m1).None? {
      assert hard1 + [] + (hard2 + soft2) == hard1 + hard2 + soft2;
    } else {
      assert |Spoken(ear, [m1, m2])| == |hard1 + hard2 + soft2| + 1;
    }
  }

  /** A task that lands a turn late is harmless exactly when it found no soft signal or the
      later turn had no hard one: otherwise the two transitions swap. */
  lemma LateLandingSwaps(ear: Listener, s: Session, m1: string, m2: string)
    ensures HappenAll(ear, Line(s, []), OneTurnLate(m1, m2)).session == SyncCall(ear, s, [m1, m2]).0
            <==> SoftOf(ear, m1).None? || HardSignals(ear, m2) == []
  {
    hide HappenAll, SyncCall, Surviving, SoftSignal;
    AgreesIffNothingLost(ear, s, OneTurnLate(m1, m2), [m1, m2]);
    SurvivingOneTurnLate(ear, m1, m2);
    SpokenInTwo(ear, m1, m2);
    OrdersAgree(ear, m1, m2);
  }

  /** Hard and soft signals are different signals, so the two orders agree only trivially. */
  lemma OrdersAgree(ear: Listener, m1: string, m2: string)
    ensures var hard1, hard2 := HardSignals(ear, m1), HardSignals(ear, m2);
            var soft1, soft2 := AsList(SoftOf(ear, m1)), AsList(SoftOf(ear, m2));
            hard1 + hard2 + soft1 + soft2 == hard1 + soft1 + (hard2 + soft2) <==> SoftOf(ear, m1).None? || hard2 == []
  {
    SoftNeverRoutes(ear, m1);
    SoftNeverRoutes(ear, m2);
    hide SoftSignal, HardSignals;
    var hard1, hard2 := HardSignals(ear, m1), HardSignals(ear, m2);
    var soft1, soft2 := AsList(SoftOf(ear, m1)), AsList(SoftOf(ear, m2));
    if SoftOf(ear, m1).Some? && hard2 != [] {
      assert (hard1 + hard2 + soft1 + soft2)[|hard1|] == hard2[0];
      assert (hard1 + soft1 + (hard2 + soft2))[|hard1|] == soft1[0];
      assert hard2[0] in hard2;
    }
  }

  function HostileEar(): Listener {
    Listener((text, signal) => text == "dispute" && signal == DisputeMentioned,
             text => SentimentResult(HostileMood, 0.9))
  }

  /** A caller who is hostile throughout and disputes in the second turn: both late schedules end
      elsewhere than the synchronous path. */
  lemma LateTasksDoHarm(ear: Listener, s: Session)
    requires ear == HostileEar()
    ensures HappenAll(ear, Line(s, []), MidTurn("no", "dispute")).session != SyncCall(ear, s, ["no", "dispute"]).0
    ensures HappenAll(ear, Line(s, []), OneTurnLate("no", "dispute")).session != SyncCall(ear, s, ["no", "dispute"]).0
  {
    hide HappenAll, SyncCall;
    MidTurnLandingIsLost(ear, s, "no", "dispute");
    LateLandingSwaps(ear, s, "no", "dispute");
    FirstMatchIsFirst(ear, "no", HARD_SIGNALS);
    FirstMatchIsFirst(ear, "dispute", HARD_SIGNALS);
    assert HARD_SIGNALS[1] == DisputeMentioned;
  }
}
