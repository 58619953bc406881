/** One turn through the workflow graph: classify, move the state, route, draft, review, and
    retry a blocked draft a bounded number of times. */
module TurnGraph {
  import opened Common
  import opened StateMachine
  import opened Signals
  import opened Compliance

  /** The language model and the pattern screen. `chat` may answer differently on every attempt
      and sees the rationale of the block it must repair; `review` may too. */
  datatype Models = Models(
    ear: Listener,
    chat: (nat, State, Option<string>) -> string,
    screen: string -> ComplianceResult,
    review: (nat, string) -> ComplianceResult)

  const CANNED_DISPUTE := "canned dispute response"
  const CANNED_CALLBACK := "canned callback response"
  const CANNED_HANDOFF := "canned handoff response"
  const COMPLIANCE_FALLBACK := "compliance fallback response"

  datatype Node =
    | ClassifySignals | ApplyTransitions | RouteBranch
    | RespondNode | DisputeNode | CallbackNode | HandoffNode
    | ComplianceCheck | BumpRetry | Finalize | End

  /** The shared working state; `reviewed` lists the drafts that compliance saw and `checks` counts
      them. */
  datatype Turn = Turn(
    node: Node,
    userMessage: string,
    callState: State,
    transitionLog: seq<LogEntry>,
    signals: seq<Signal>,
    branch: Branch,
    draft: string,
    verdict: Option<ComplianceResult>,
    retryCount: nat,
    finalResponse: string,
    reviewed: seq<string>,
    checks: nat)

  function Blocked(verdict: Option<ComplianceResult>): bool {
    verdict.Some? && verdict.value.verdict == Block
  }

  function NodeOf(branch: Branch): Node {
    match branch
    case Respond => RespondNode
    case DisputeBranch => DisputeNode
    case Callback => CallbackNode
    case Handoff => HandoffNode
  }

  function Directive(verdict: Option<ComplianceResult>): Option<string> {
    if Blocked(verdict) then Some(verdict.value.rationale) else None
  }

  /** What running the current node does to the state, and which node follows. */
  function Step(m: Models, maxRetries: nat, t: Turn): Turn {
    match t.node
    case ClassifySignals => t.(signals := AllSignals(m.ear, t.userMessage), node := ApplyTransitions)
    case ApplyTransitions =>
      t.(callState := Apply(t.callState, t.signals),
         transitionLog := t.transitionLog + LogOf(t.callState, t.signals),
         node := RouteBranch)
    case RouteBranch =>
      var branch := DecideBranch(t.signals);
      t.(branch := branch, node := NodeOf(branch))
    case RespondNode => t.(draft := m.chat(t.retryCount, t.callState, Directive(t.verdict)), node := ComplianceCheck)
    case DisputeNode => t.(draft := CANNED_DISPUTE, node := ComplianceCheck)
    case CallbackNode => t.(draft := CANNED_CALLBACK, node := ComplianceCheck)
    case HandoffNode => t.(draft := CANNED_HANDOFF, node := ComplianceCheck)
    case ComplianceCheck =>
      var r := CheckCompliance(m.screen(t.draft), m.review(t.checks, t.draft));
      t.(verdict := Some(r), reviewed := t.reviewed + [t.draft], checks := t.checks + 1,
         node := if r.verdict == Block && t.retryCount < maxRetries then BumpRetry else Finalize)
    case BumpRetry => t.(retryCount := t.retryCount + 1, node := RespondNode)
    case Finalize =>
      t.(finalResponse := if Blocked(t.verdict) then COMPLIANCE_FALLBACK else t.draft, node := End)
    case End => t
  }

  function Start(userMessage: string, callState: State, transitionLog: seq<LogEntry>): Turn {
    Turn(ClassifySignals, userMessage, callState, transitionLog, [], Respond, "", None, 0, "", [], 0)
  }

  // ---- Specification: the sequence of drafts and verdicts -----------------------------

  datatype Attempt = Attempt(draft: string, result: ComplianceResult)

  function FirstDraft(m: Models, branch: Branch, state: State): string {
    match branch
    case Respond => m.chat(0, state, None)
    case DisputeBranch => CANNED_DISPUTE
    case Callback => CANNED_CALLBACK
    case Handoff => CANNED_HANDOFF
  }

  function Reviewed(m: Models, k: nat, draft: string): Attempt {
    Attempt(draft, CheckCompliance(m.screen(draft), m.review(k, draft)))
  }

  /** The k-th draft and its review, if every earlier one was blocked: the first comes from the
      branch, every later one from the model, told why its predecessor was blocked. */
  function AttemptAt(m: Models, branch: Branch, state: State, k: nat): Attempt {
    if k == 0 then Reviewed(m, 0, FirstDraft(m, branch, state))
    else Reviewed(m, k, m.chat(k, state, Some(AttemptAt(m, branch, state, k - 1).result.rationale)))
  }

  ghost predicate BlockedAt(m: Models, branch: Branch, state: State, k: nat) {
    AttemptAt(m, branch, state, k).result.verdict == Block
  }

  /** The outcome of a turn: the first draft that is not blocked among 0..maxRetries, or the
      fallback when all of them are; `checks` reviews were made to find out. */
  ghost predicate Outcome(m: Models, maxRetries: nat, branch: Branch, state: State, text: string, checks: nat) {
    && 1 <= checks <= maxRetries + 1
    && (forall k: nat :: k < checks - 1 ==> BlockedAt(m, branch, state, k))
    && (if BlockedAt(m, branch, state, checks - 1)
        then checks == maxRetries + 1 && text == COMPLIANCE_FALLBACK
        else text == AttemptAt(m, branch, state, checks - 1).draft)
  }

  // ---- The run ------------------------------------------------------------------------

  /** Steps left on the way to the end within one retry round. */
  function Rank(node: Node): nat {
    match node
    case ClassifySignals => 8
    case ApplyTransitions => 7
    case RouteBranch => 6
    case RespondNode => 5
    case DisputeNode => 5
    case CallbackNode => 5
    case HandoffNode => 5
    case ComplianceCheck => 4
    case BumpRetry => 3
    case Finalize => 3
    case End => 0
  }

  /** The turn after routing: state, log and branch are settled. */
  function Routed(m: Models, start: Turn): Turn {
    var signals := AllSignals(m.ear, start.userMessage);
    start.(signals := signals,
           callState := Apply(start.callState, signals),
           transitionLog := start.transitionLog + LogOf(start.callState, signals),
           branch := DecideBranch(signals),
           node := NodeOf(DecideBranch(signals)))
  }

  /** From routing on, only drafting and reviewing fields differ, and every earlier draft was
      blocked. */
  ghost predicate Drafting(m: Models, maxRetries: nat, r: Turn, t: Turn) {
    && t.callState == r.callState && t.transitionLog == r.transitionLog
    && t.signals == r.signals && t.branch == r.branch
    && t.retryCount <= maxRetries
    && |t.reviewed| == t.checks
    && (forall k: nat :: k < |t.reviewed| ==> t.reviewed[k] == AttemptAt(m, r.branch, r.callState, k).draft)
    && (forall k: nat :: k < t.retryCount ==> BlockedAt(m, r.branch, r.callState, k))
  }

  /** What is known at each node, for the turn `r` as routed. */
  ghost predicate NodeOk(m: Models, maxRetries: nat, r: Turn, t: Turn) {
    match t.node
    case ClassifySignals => false
    case ApplyTransitions => false
    case RouteBranch => false
    case ComplianceCheck =>
      t.checks == t.retryCount && t.draft == AttemptAt(m, r.branch, r.callState, t.retryCount).draft
    case BumpRetry => JustReviewed(m, r, t) && Blocked(t.verdict) && t.retryCount < maxRetries
    case Finalize => JustReviewed(m, r, t) && (Blocked(t.verdict) ==> t.retryCount == maxRetries)
    case End => Outcome(m, maxRetries, r.branch, r.callState, t.finalResponse, t.checks)
    case _ =>
      && t.checks == t.retryCount
      && (if t.retryCount == 0 then t.node == NodeOf(r.branch) && t.verdict == None
          else t.verdict == Some(AttemptAt(m, r.branch, r.callState, t.retryCount - 1).result)
               && t.node == RespondNode)
  }

  ghost predicate JustReviewed(m: Models, r: Turn, t: Turn) {
    && t.checks == t.retryCount + 1
    && t.draft == AttemptAt(m, r.branch, r.callState, t.retryCount).draft
    && t.verdict == Some(AttemptAt(m, r.branch, r.callState, t.retryCount).result)
  }

  ghost predicate TurnOk(m: Models, maxRetries: nat, start: Turn, t: Turn) {
    var r := Routed(m, start);
    if t.node == ClassifySignals then t == start
    else if t.node == ApplyTransitions then t == start.(signals := r.signals, node := ApplyTransitions)
    else if t.node == RouteBranch then t == r.(branch := start.branch, node := RouteBranch)
    else Drafting(m, maxRetries, r, t) && NodeOk(m, maxRetries, r, t)
  }

  ghost predicate Closer(t: Turn, t': Turn) {
    t'.retryCount > t.retryCount || (t'.retryCount == t.retryCount && Rank(t'.node) < Rank(t.node))
  }

  predicate IsDraftNode(node: Node) {
    node == RespondNode || node == DisputeNode || node == CallbackNode || node == HandoffNode
  }

  lemma DraftStep(m: Models, maxRetries: nat, r: Turn, t: Turn)
    requires Drafting(m, maxRetries, r, t) && NodeOk(m, maxRetries, r, t) && IsDraftNode(t.node)
    ensures var t' := Step(m, maxRetries, t);
            Drafting(m, maxRetries, r, t') && NodeOk(m, maxRetries, r, t') && Closer(t, t')
            && t'.node == ComplianceCheck
  {
    if t.retryCount > 0 {
      assert BlockedAt(m, r.branch, r.callState, t.retryCount - 1);
    }
  }

  lemma ReviewStep(m: Models, maxRetries: nat, r: Turn, t: Turn)
    requires Drafting(m, maxRetries, r, t) && NodeOk(m, maxRetries, r, t) && t.node == ComplianceCheck
    ensures var t' := Step(m, maxRetries, t);
            Drafting(m, maxRetries, r, t') && NodeOk(m, maxRetries, r, t') && Closer(t, t')
            && (t'.node == BumpRetry || t'.node == Finalize)
  {
  }

  lemma RetryStep(m: Models, maxRetries: nat, r: Turn, t: Turn)
    requires Drafting(m, maxRetries, r, t) && NodeOk(m, maxRetries, r, t) && t.node == BumpRetry
    ensures var t' := Step(m, maxRetries, t);
            Drafting(m, maxRetries, r, t') && NodeOk(m, maxRetries, r, t') && Closer(t, t')
            && t'.node == RespondNode
  {
    hide AttemptAt, Outcome;
  }

  lemma FinishStep(m: Models, maxRetries: nat, r: Turn, t: Turn)
    requires Drafting(m, maxRetries, r, t) && NodeOk(m, maxRetries, r, t) && t.node == Finalize
    ensures var t' := Step(m, maxRetries, t);
            Drafting(m, maxRetries, r, t') && NodeOk(m, maxRetries, r, t') && Closer(t, t')
            && t'.node == End
  {
    hide AttemptAt;
  }

  predicate IsEarlyNode(node: Node) {
    node == ClassifySignals || node == ApplyTransitions || node == RouteBranch
  }

  lemma EarlyStep(m: Models, maxRetries: nat, start: Turn, t: Turn)
    requires start == Start(start.userMessage, start.callState, start.transitionLog)
    requires TurnOk(m, maxRetries, start, t) && IsEarlyNode(t.node)
    ensures TurnOk(m, maxRetries, start, Step(m, maxRetries, t)) && Closer(t, Step(m, maxRetries, t))
  {
    hide AttemptAt, Outcome, BlockedAt, JustReviewed, AllSignals, Apply, LogOf;
  }

  lemma StepKeepsTurnOk(m: Models, maxRetries: nat, start: Turn, t: Turn)
    requires start == Start(start.userMessage, start.callState, start.transitionLog)
    requires TurnOk(m, maxRetries, start, t) && t.node != End
    ensures TurnOk(m, maxRetries, start, Step(m, maxRetries, t)) && Closer(t, Step(m, maxRetries, t))
  {
    hide AttemptAt, Outcome, BlockedAt, JustReviewed, AllSignals, Apply, LogOf, Drafting, NodeOk, Step, Closer, Routed;
    var r := Routed(m, start);
    if IsEarlyNode(t.node) {
      EarlyStep(m, maxRetries, start, t);
    } else if IsDraftNode(t.node) {
      DraftStep(m, maxRetries, r, t);
    } else if t.node == ComplianceCheck {
      ReviewStep(m, maxRetries, r, t);
    } else if t.node == BumpRetry {
      RetryStep(m, maxRetries, r, t);
    } else {
      FinishStep(m, maxRetries, r, t);
    }
  }

  /** A turn always ends, after at most maxRetries + 1 reviews, with the state and log moved by
      the turn's signals and a text that is the fallback or a draft that was not blocked. */
  method RunTurn(m: Models, maxRetries: nat, userMessage: string, callState: State, transitionLog: seq<LogEntry>)
    returns (t: Turn)
    ensures var signals := AllSignals(m.ear, userMessage);
            && t.signals == signals && t.branch == DecideBranch(signals)
            && t.callState == Apply(callState, signals)
            && t.transitionLog == transitionLog + LogOf(callState, signals)
            && Outcome(m, maxRetries, t.branch, t.callState, t.finalResponse, t.checks)
    // In terms of what the utterance matches: the branch, and the text compliance sees first.
    ensures Routes(m.ear, userMessage, t.branch)
    ensures |t.reviewed| == t.checks >= 1
    ensures t.reviewed[0] == (if m.ear.matches(userMessage, BankruptcyMentioned) then CANNED_HANDOFF
                              else if m.ear.matches(userMessage, DisputeMentioned) then CANNED_DISPUTE
                              else if m.ear.matches(userMessage, ManagerRequested) then CANNED_CALLBACK
                              else m.chat(0, t.callState, None))
    ensures t.finalResponse == COMPLIANCE_FALLBACK || t.finalResponse == t.reviewed[|t.reviewed| - 1]
  {
    BranchExact(m.ear, userMessage);
    hide AttemptAt, AllSignals, Apply, LogOf, DecideBranch, Routed;
    t := Start(userMessage, callState, transitionLog);
    ghost var start := t;
    while t.node != End
      invariant TurnOk(m, maxRetries, start, t)
      decreases maxRetries - t.retryCount, Rank(t.node)
    {
      StepKeepsTurnOk(m, maxRetries, start, t);
      t := Step(m, maxRetries, t);
    }
    RoutedFields(m, start);
    FirstAttempt(m, t.branch, t.callState);
  }

  lemma RoutedFields(m: Models, start: Turn)
    ensures var r, signals := Routed(m, start), AllSignals(m.ear, start.userMessage);
            && r.signals == signals && r.branch == DecideBranch(signals)
            && r.callState == Apply(start.callState, signals)
            && r.transitionLog == start.transitionLog + LogOf(start.callState, signals)
  {
  }

  lemma FirstAttempt(m: Models, branch: Branch, state: State)
    ensures AttemptAt(m, branch, state, 0).draft
            == if branch == Handoff then CANNED_HANDOFF
               else if branch == DisputeBranch then CANNED_DISPUTE
               else if branch == Callback then CANNED_CALLBACK
               else m.chat(0, state, None)
  {
  }

  /** Safety of what is spoken: the fallback, or a text that neither the patterns nor the
      reviewing model blocked on the review that let it through. */
  lemma SpokenTextIsNotBlocked(m: Models, maxRetries: nat, branch: Branch, state: State, text: string, checks: nat)
    requires Outcome(m, maxRetries, branch, state, text, checks)
    ensures || text == COMPLIANCE_FALLBACK
            || (m.screen(text).verdict != Block && m.review(checks - 1, text).verdict != Block)
  {
  }
}
