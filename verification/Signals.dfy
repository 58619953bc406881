/** Hearing signals in an utterance: patterns first, sentiment only when no pattern has already
    committed the call. The patterns' matches and the sentiment answer are inputs. */
module Signals {
  import opened Common
  import opened StateMachine

  datatype Sentiment = HostileMood | PositiveMood | NeutralMood

  datatype SentimentResult = SentimentResult(sentiment: Sentiment, confidence: real)

  /** What an utterance matches and how its sentiment is classified, as functions of its text. */
  datatype Listener = Listener(matches: (string, Signal) -> bool, sentiment: string -> SentimentResult)

  /** Pattern order; the first match wins. */
  const HARD_SIGNALS: seq<Signal> :=
    [BankruptcyMentioned, DisputeMentioned, ManagerRequested, PaymentCommitted, HesitationDetected]

  predicate HardTerminal(s: Signal) {
    s == BankruptcyMentioned || s == DisputeMentioned || s == ManagerRequested || s == PaymentCommitted
  }

  function FirstMatch(ear: Listener, text: string, candidates: seq<Signal>): Option<Signal> {
    if candidates == [] then None
    else if ear.matches(text, candidates[0]) then Some(candidates[0])
    else FirstMatch(ear, text, candidates[1..])
  }

  function AsList(s: Option<Signal>): seq<Signal> {
    if s.Some? then [s.value] else []
  }

  function HardSignals(ear: Listener, text: string): seq<Signal> {
    AsList(FirstMatch(ear, text, HARD_SIGNALS))
  }

  function SentimentToSignal(r: SentimentResult): Option<Signal> {
    if r.confidence < 0.6 then None
    else match r.sentiment
      case HostileMood => Some(HostileSentiment)
      case PositiveMood => Some(PositiveResponse)
      case NeutralMood => None
  }

  function SoftSignal(ear: Listener, text: string, hard: seq<Signal>): Option<Signal> {
    if exists h :: h in hard && HardTerminal(h) then None
    else
      var soft := SentimentToSignal(ear.sentiment(text));
      if soft.Some? && soft.value !in hard then soft else None
  }

  /** Both passes, as the synchronous path runs them. */
  function AllSignals(ear: Listener, text: string): seq<Signal> {
    var hard := HardSignals(ear, text);
    hard + AsList(SoftSignal(ear, text, hard))
  }

  datatype Branch = Respond | DisputeBranch | Callback | Handoff

  function DecideBranch(signals: seq<Signal>): Branch {
    if BankruptcyMentioned in signals then Handoff
    else if DisputeMentioned in signals then DisputeBranch
    else if ManagerRequested in signals then Callback
    else Respond
  }

  /** The answer is the first candidate whose pattern matches, or none when none does. */
  lemma {:induction false} FirstMatchIsFirst(ear: Listener, text: string, candidates: seq<Signal>)
    ensures var r := FirstMatch(ear, text, candidates);
            && (r.None? ==> forall c :: c in candidates ==> !ear.matches(text, c))
            && (r.Some? ==> exists i :: 0 <= i < |candidates| && candidates[i] == r.value && ear.matches(text, r.value)
                                        && forall j :: 0 <= j < i ==> !ear.matches(text, candidates[j]))
  {
    if candidates != [] && !ear.matches(text, candidates[0]) {
      var rest := candidates[1..];
      FirstMatchIsFirst(ear, text, rest);
      var r := FirstMatch(ear, text, candidates);
      if r.Some? {
        var i :| 0 <= i < |rest| && rest[i] == r.value && ear.matches(text, r.value)
                 && forall j :: 0 <= j < i ==> !ear.matches(text, rest[j]);
        assert candidates[i + 1] == r.value;
        forall j | 0 <= j < i + 1 ensures !ear.matches(text, candidates[j]) {
          assert j > 0 ==> rest[j - 1] == candidates[j];
        }
      }
    }
  }

  /** Which hard signal an utterance yields, by its matches alone: bankruptcy before dispute before
      a manager before a commitment before hesitation. */
  lemma HardSignalExact(ear: Listener, text: string)
    ensures var hard := HardSignals(ear, text);
            var bankruptcy, dispute := ear.matches(text, BankruptcyMentioned), ear.matches(text, DisputeMentioned);
            var manager, commitment := ear.matches(text, ManagerRequested), ear.matches(text, PaymentCommitted);
            hard == if bankruptcy then [BankruptcyMentioned]
                    else if dispute then [DisputeMentioned]
                    else if manager then [ManagerRequested]
                    else if commitment then [PaymentCommitted]
                    else if ear.matches(text, HesitationDetected) then [HesitationDetected]
                    else []
  {
    FirstMatchIsFirst(ear, text, HARD_SIGNALS);
    var c := HARD_SIGNALS;
    assert c[0] == BankruptcyMentioned && c[1] == DisputeMentioned && c[2] == ManagerRequested;
    assert c[3] == PaymentCommitted && c[4] == HesitationDetected;
    hide FirstMatch;
    var r := FirstMatch(ear, text, c);
    if r.Some? {
      var i :| 0 <= i < |c| && c[i] == r.value && ear.matches(text, r.value)
               && forall j :: 0 <= j < i ==> !ear.matches(text, c[j]);
      assert i == 0 || i == 1 || i == 2 || i == 3 || i == 4;
    }
  }

  /** The branch an utterance must take, read off its matches. */
  predicate Routes(ear: Listener, text: string, branch: Branch) {
    && (branch == Handoff <==> ear.matches(text, BankruptcyMentioned))
    && (branch == DisputeBranch <==> ear.matches(text, DisputeMentioned) && !ear.matches(text, BankruptcyMentioned))
    && (branch == Callback <==>
          && ear.matches(text, ManagerRequested)
          && !ear.matches(text, DisputeMentioned) && !ear.matches(text, BankruptcyMentioned))
    && (branch == Respond <==>
          && !ear.matches(text, ManagerRequested)
          && !ear.matches(text, DisputeMentioned) && !ear.matches(text, BankruptcyMentioned))
  }

  /** Both paths take it. */
  lemma BranchExact(ear: Listener, text: string)
    ensures Routes(ear, text, DecideBranch(HardSignals(ear, text)))
    ensures Routes(ear, text, DecideBranch(AllSignals(ear, text)))
  {
    HardSignalExact(ear, text);
    SoftNeverRoutes(ear, text);
    hide HardSignals, AllSignals;
  }

  /** The soft signal exactly: the mood, unless a pattern other than hesitation matches or the
      classifier is less than 0.6 sure. */
  lemma SoftSignalExact(ear: Listener, text: string)
    ensures var mood := ear.sentiment(text);
            var heard := && !ear.matches(text, BankruptcyMentioned) && !ear.matches(text, DisputeMentioned)
                         && !ear.matches(text, ManagerRequested) && !ear.matches(text, PaymentCommitted)
                         && mood.confidence >= 0.6;
            var soft := SoftSignal(ear, text, HardSignals(ear, text));
            && (soft == Some(HostileSentiment) <==> heard && mood.sentiment == HostileMood)
            && (soft == Some(PositiveResponse) <==> heard && mood.sentiment == PositiveMood)
            && (soft.None? <==> !heard || mood.sentiment == NeutralMood)
  {
    HardSignalExact(ear, text);
    hide HardSignals;
    var hard := HardSignals(ear, text);
    assert hard != [] ==> hard[0] in hard;
  }

  /** Hard signals never soften the tone and soft ones do nothing else, so leaving the soft
      one out cannot change the branch. */
  lemma SoftNeverRoutes(ear: Listener, text: string)
    ensures DecideBranch(AllSignals(ear, text)) == DecideBranch(HardSignals(ear, text))
    ensures forall h :: h in HardSignals(ear, text) ==> !Softening(h)
    ensures var soft := SoftSignal(ear, text, HardSignals(ear, text));
            soft.Some? ==> Softening(soft.value)
  {
    FirstMatchIsFirst(ear, text, HARD_SIGNALS);
  }
}
