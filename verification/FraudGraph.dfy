/** The scoring graph: nodes that update one state and name their successor. What the session
    store, the enrichment services and the model do at each node is arbitrary. */
module FraudGraph {
  import opened Domain
  import F = FraudLease

  // ----- The guard on what is sent to the model -----

  datatype Message = Message(role: string, content: string)

  predicate Hex(c: char) {
    '0' <= c <= '9' || 'a' <= c <= 'f' || 'A' <= c <= 'F'
  }

  const UUID_LENGTH := 36

  predicate UuidChar(c: char, k: int) {
    if k == 8 || k == 13 || k == 18 || k == 23 then c == '-' else Hex(c)
  }

  /** The 8-4-4-4-12 shape at position `i`, not part of a longer run of hex digits. */
  predicate UuidAt(s: string, i: nat) {
    && i + UUID_LENGTH <= |s|
    && (forall k | i <= k < i + UUID_LENGTH :: UuidChar(s[k], k - i))
    && (i == 0 || !Hex(s[i - 1])) && (i + UUID_LENGTH == |s| || !Hex(s[i + UUID_LENGTH]))
  }

  predicate HasUuid(s: string) {
    exists i | 0 <= i < |s| :: UuidAt(s, i)
  }

  function Lower(s: string): string {
    seq(|s|, i requires 0 <= i < |s| => if 'A' <= s[i] <= 'Z' then 'a' + (s[i] - 'A') else s[i])
  }

  predicate Contains(s: string, part: string) {
    exists i | 0 <= i <= |s| :: part <= s[i..]
  }

  predicate Sensitive(s: string, keys: seq<string>) {
    exists k | 0 <= k < |keys| :: Contains(Lower(s), Lower(keys[k]))
  }

  /** Python strips the four information separators too. */
  predicate Strippable(c: char) { IsBlank(c) || '\U{001C}' <= c <= '\U{001F}' }

  function StripLeft(s: string): string {
    if s != "" && Strippable(s[0]) then StripLeft(s[1..]) else s
  }

  function StripRight(s: string): string {
    if s != "" && Strippable(s[|s| - 1]) then StripRight(s[..|s| - 1]) else s
  }

  function Strip(s: string): string { StripRight(StripLeft(s)) }

  function GuardPrompt(prompt: string, maxChars: nat, keys: seq<string>): Option<string> {
    if Strip(prompt) == "" then Some("prompt_empty")
    else if HasUuid(prompt) then Some("uuid_detected")
    else if Sensitive(prompt, keys) then Some("sensitive_key_detected")
    else if |prompt| > maxChars then Some("prompt_too_large")
    else None
  }

  /** Text that may be sent to the model. */
  ghost predicate Safe(text: string, maxChars: nat, keys: seq<string>) {
    Strip(text) != "" && |text| <= maxChars && !HasUuid(text) && forall k | k in keys :: !Contains(Lower(text), Lower(k))
  }

  lemma GuardLetsSafeTextThrough(prompt: string, maxChars: nat, keys: seq<string>)
    ensures GuardPrompt(prompt, maxChars, keys).None? <==> Safe(prompt, maxChars, keys)
  {
    if !Sensitive(prompt, keys) {
      forall k | k in keys ensures !Contains(Lower(prompt), Lower(k)) {
        var i :| 0 <= i < |keys| && keys[i] == k;
      }
    }
  }

  function Join(messages: seq<Message>): string {
    if messages == [] then ""
    else if |messages| == 1 then messages[0].content
    else messages[0].content + "\n" + Join(messages[1..])
  }

  // ----- The validator on what the model answers -----

  datatype Score = NotANumber | NotFinite | Number(value: real)

  /** A parsed answer; `text` is the object serialised again. */
  datatype Answer = NotJson | NotAnObject | Object(score: Score, action: string, reason: Option<string>, text: string)

  datatype Validation = Validation(verdict: Option<F.Verdict>, rejection: string)

  datatype Config = Config(
    scoreThreshold: real, blockThreshold: real, promptMax: nat, responseMax: nat, keys: seq<string>,
    instruction: string, parse: string -> Answer)

  function Rejected(reason: string): Validation { Validation(None, reason) }

  function Clamped(score: real): real {
    if score < 0.0 then 0.0 else if score > 1.0 then 1.0 else score
  }

  function Canonical(cfg: Config, score: real): F.Action {
    if score >= cfg.blockThreshold then F.Block else if score >= cfg.scoreThreshold then F.Flag else F.Allow
  }

  const REASON_MAX := 300

  function Validate(cfg: Config, response: string): Validation {
    if |response| > cfg.responseMax then Rejected("response_too_large")
    else match cfg.parse(response)
      case NotJson => Rejected("invalid_json")
      case NotAnObject => Rejected("invalid_schema")
      case Object(score, action, reason, text) =>
        if F.ParseAction(action).None? then Rejected("invalid_action")
        else if !score.Number? || score.value < -0.01 || score.value > 1.01 then Rejected("invalid_score")
        else if reason.None? || Strip(reason.value) == "" || |reason.value| > REASON_MAX then Rejected("invalid_schema")
        else if HasUuid(text) || Sensitive(text, cfg.keys) then Rejected("sensitive_output")
        else
          var risk := Clamped(score.value);
          var canonical := Canonical(cfg, risk);
          var asked := F.ParseAction(action).value;
          Validation(Some(F.Verdict(risk, canonical, Strip(reason.value), asked, asked != canonical)), "")
  }

  /** A verdict the validator lets through: clamped score, action by the thresholds, a reason. */
  ghost predicate Sound(cfg: Config, v: F.Verdict) {
    && 0.0 <= v.risk <= 1.0 && 0 < |v.reason| <= 300
    && (v.action.Block? <==> v.risk >= cfg.blockThreshold)
    && (v.action.Flag? <==> cfg.scoreThreshold <= v.risk < cfg.blockThreshold)
    && (v.normalized <==> v.modelAction != v.action)
  }

  lemma StripShortens(s: string)
    ensures |Strip(s)| <= |s|
  {
    StripLeftShortens(s);
    StripRightShortens(StripLeft(s));
  }

  lemma StripLeftShortens(s: string)
    ensures |StripLeft(s)| <= |s|
  {
  }

  lemma StripRightShortens(s: string)
    ensures |StripRight(s)| <= |s|
  {
  }

  lemma ValidVerdictsAreSound(cfg: Config, response: string)
    ensures var v := Validate(cfg, response).verdict; v.Some? ==> Sound(cfg, v.value)
  {
    match cfg.parse(response)
    case Object(_, _, Some(reason), _) => StripShortens(reason);
    case _ =>
  }

  /** An answer that can be used: an object with a known action, a score between 0 and 1 but for a
      hundredth, a reason that is not blank and of at most 300 characters, and nothing sensitive. */
  ghost predicate Usable(cfg: Config, response: string) {
    && |response| <= cfg.responseMax && cfg.parse(response).Object?
    && var a := cfg.parse(response);
       && (a.action == "allow" || a.action == "flag" || a.action == "block")
       && a.score.Number? && -0.01 <= a.score.value && a.score.value <= 1.01
       && a.reason.Some? && Strip(a.reason.value) != "" && |a.reason.value| <= 300
       && !HasUuid(a.text) && forall k | k in cfg.keys :: !Contains(Lower(a.text), Lower(k))
  }

  /** The validator accepts exactly the usable answers; the verdict has the answer's score, cut to
      between 0 and 1, and its stripped reason, and tells what the model asked for. */
  lemma ValidatesUsableAnswers(cfg: Config, response: string)
    ensures var v := Validate(cfg, response).verdict; var a := cfg.parse(response);
      && (v.Some? <==> Usable(cfg, response))
      && (v.Some? ==>
            && v.value.risk == (if a.score.value < 0.0 then 0.0 else if a.score.value > 1.0 then 1.0 else a.score.value)
            && v.value.reason == Strip(a.reason.value)
            && (v.value.modelAction == F.Allow <==> a.action == "allow") && (v.value.modelAction == F.Flag <==> a.action == "flag")
            && (v.value.modelAction == F.Block <==> a.action == "block"))
  {
    hide HasUuid, Contains, Lower, Strip;
    var a := cfg.parse(response);
    if a.Object? {
      if !Sensitive(a.text, cfg.keys) {
        forall k | k in cfg.keys ensures !Contains(Lower(a.text), Lower(k)) {
          var i :| 0 <= i < |cfg.keys| && cfg.keys[i] == k;
        }
      }
    }
  }

  // ----- Nodes -----

  datatype Node =
    CreateSession | BuildContext | Enrich | BuildPrompt | InputGuard | CallLlm | ValidateVerdict | RetryPrompt | CompleteSession | End

  /** What is rendered of the enrichment: the sentence used in both prompts, and its lead-in. */
  datatype Facts = Facts(header: string, sentence: string)

  datatype Session = Session(completed: Option<F.Outcome>)

  /** What the outside does at one node: an absent value is an exception. */
  datatype World = World(claim: Option<Session>, audit: bool, facts: Option<Facts>, response: Option<string>, complete: bool)

  datatype State = State(
    session: Option<Session>, facts: Option<Facts>, prompt: string, messages: Option<seq<Message>>, response: string,
    validation: Option<Validation>, outcome: Option<F.Outcome>, attempt: nat, next: Node,
    visited: nat,                   // nodes run so far
    accepted: Option<seq<Message>>, // the messages that last passed the guard
    calls: seq<seq<Message>>,       // what the model was called with
    answers: seq<string>,           // what it answered
    stored: Option<F.Outcome>)      // what was stored as the session's outcome

  const START := State(None, None, "", None, "", None, None, 1, CreateSession, 0, None, [], [], None)

  function Failed(reason: string): F.Outcome { F.Outcome(None, None, Some(reason)) }

  function Messages(cfg: Config, prompt: string): seq<Message> {
    [Message("system", cfg.instruction), Message("user", prompt)]
  }

  const CORRECTION :=
    "Return only a JSON object with risk_score, action, and a concise reason. Correct the previous validation failure: "

  function Corrective(reason: string): string { CORRECTION + reason + "." }

  /** The audit write of a node, which raises unless it goes through or there is no session. */
  predicate Audited(st: State, w: World) {
    st.session.None? || w.audit
  }

  function To(st: State, next: Node): State { st.(next := next) }

  function Ends(st: State, reason: string): State {
    st.(outcome := Some(Failed(reason)), next := CompleteSession)
  }

  datatype Step = Goes(state: State) | Raises(state: State)

  /** One node; an exception leaves the graph. */
  function RunNode(cfg: Config, st0: State, w: World): Step {
    var st := st0.(visited := st0.visited + 1);
    match st.next
    case CreateSession =>
      if w.claim.None? || !w.audit then Raises(st)
      else
        var s := st.(session := w.claim);
        if w.claim.value.completed.Some? then Goes(s.(outcome := w.claim.value.completed, next := End)) else Goes(To(s, BuildContext))
    case BuildContext => if Audited(st, w) then Goes(To(st, Enrich)) else Raises(st)
    case Enrich =>
      if w.facts.None? then Goes(Ends(st, "enrichment_failed"))
      else if !Audited(st, w) then Goes(Ends(st.(facts := w.facts), "enrichment_failed"))
      else Goes(To(st.(facts := w.facts), BuildPrompt))
    case BuildPrompt =>
      if st.facts.None? || !Audited(st, w) then Raises(st)
      else
        var prompt := st.facts.value.header + st.facts.value.sentence;
        Goes(To(st.(prompt := prompt, messages := Some(Messages(cfg, prompt))), InputGuard))
    case InputGuard =>
      if st.messages.None? || !Audited(st, w) then Raises(st)
      else if GuardPrompt(Join(st.messages.value), cfg.promptMax, cfg.keys).Some? then Goes(Ends(st, "prompt_rejected"))
      else Goes(To(st.(accepted := st.messages), CallLlm))
    case CallLlm =>
      if st.messages.None? then Raises(st)
      else
        var s := st.(calls := st.calls + [st.messages.value]);
        if !Audited(st, w) then Raises(s)
        else if w.response.None? then Goes(Ends(s, "model_failed")) else Goes(To(s.(response := w.response.value, answers := s.answers + [w.response.value]), ValidateVerdict))
    case ValidateVerdict =>
      var v := Validate(cfg, st.response);
      if !Audited(st, w) then Raises(st)
      else if v.verdict.Some? then
        Goes(To(st.(validation := Some(v), outcome := Some(F.Outcome(Some(v.verdict.value.action), v.verdict, None))), CompleteSession))
      else if st.attempt == 1 then Goes(To(st.(validation := Some(v)), RetryPrompt))
      else Goes(Ends(st.(validation := Some(v)), "validation_failed"))
    case RetryPrompt =>
      if st.facts.None? || st.validation.None? || !Audited(st, w) then Raises(st)
      else
        var prompt := Corrective(st.validation.value.rejection) + "\nSanitized facts: " + st.facts.value.sentence;
        Goes(st.(prompt := prompt, messages := Some(Messages(cfg, prompt)), response := "", attempt := 2, next := InputGuard))
    case CompleteSession =>
      var o := if st.outcome.None? then Failed("audit_failed") else st.outcome.value;
      if st.session.None? then Goes(To(st.(outcome := Some(Failed("audit_failed"))), End))
      else if !w.audit || !w.complete then Raises(st)
      else Goes(st.(outcome := Some(o), stored := Some(o), next := End))
    case End => Raises(st)
  }

  /** How many nodes can still follow. */
  function Rank(st: State): nat {
    var late := if st.attempt == 1 then 0 else 4;
    match st.next
    case CreateSession => 12
    case BuildContext => 11
    case Enrich => 10
    case BuildPrompt => 9
    case InputGuard => 8 - late
    case CallLlm => 7 - late
    case ValidateVerdict => 6 - late
    case RetryPrompt => if st.attempt == 1 then 5 else 0
    case CompleteSession => 1
    case End => 0
  }

  ghost predicate Early(n: Node) {
    n.CreateSession? || n.BuildContext? || n.Enrich? || n.BuildPrompt?
  }

  /** What holds before every node of a run. */
  ghost predicate StateOk(cfg: Config, st: State) {
    && st.visited + Rank(st) <= 12 && (st.attempt == 1 || (st.attempt == 2 && !Early(st.next) && !st.next.RetryPrompt?))
    && |st.calls| <= (if Early(st.next) then 0
                      else if st.next.InputGuard? || st.next.CallLlm? then st.attempt - 1
                      else if st.next.ValidateVerdict? || st.next.RetryPrompt? then st.attempt else 2)
    && (st.next.CallLlm? ==> st.messages.Some? && st.accepted == st.messages)
    && (st.accepted.Some? ==> Safe(Join(st.accepted.value), cfg.promptMax, cfg.keys))
    && (forall i | 0 <= i < |st.calls| :: Safe(Join(st.calls[i]), cfg.promptMax, cfg.keys))
    && OutcomeOk(cfg, st)
  }

  ghost predicate FailureCode(reason: string) {
    reason in {"enrichment_failed", "prompt_rejected", "model_failed", "validation_failed", "audit_failed"}
  }

  /** An outcome of this run: a sound verdict's own action, or a failure with no action. */
  ghost predicate Scored(cfg: Config, o: F.Outcome) {
    if o.action.Some? then o.verdict.Some? && Sound(cfg, o.verdict.value) && o.action.value == o.verdict.value.action && o.reasonCode.None?
    else o.verdict.None? && o.reasonCode.Some? && FailureCode(o.reasonCode.value)
  }

  /** An outcome is this run's own, or that of the completed session it found. */
  ghost predicate OutcomeOk(cfg: Config, st: State) {
    && (st.session.Some? && st.session.value.completed.Some? ==> st.next.End? && st.outcome == st.session.value.completed && st.stored.None?)
    && (!(st.session.Some? && st.session.value.completed.Some?) && st.outcome.Some? ==> Scored(cfg, st.outcome.value))
    && (st.outcome.Some? ==> st.next.CompleteSession? || st.next.End?)
    && (st.next.ValidateVerdict? || (!(st.session.Some? && st.session.value.completed.Some?) && st.outcome.Some? && st.outcome.value.action.Some?) ==>
          st.answers != [] && st.response == st.answers[|st.answers| - 1])
    && (!(st.session.Some? && st.session.value.completed.Some?) && st.outcome.Some? && st.outcome.value.action.Some? ==>
          st.outcome.value.verdict == Validate(cfg, st.response).verdict)
    && (st.stored.Some? ==> st.next.End? && st.stored == st.outcome)
    && (st.next.End? && !(st.session.Some? && st.session.value.completed.Some?) ==>
          st.outcome.Some? && (st.stored == st.outcome || st.outcome == Some(Failed("audit_failed"))))
  }

  lemma StartOk(cfg: Config)
    ensures StateOk(cfg, START)
  {
  }

  /** The model was called at most twice, only with messages that pass the guard. */
  ghost predicate CallsOk(cfg: Config, st: State) {
    && st.visited <= 12 && |st.calls| <= 2
    && forall i | 0 <= i < |st.calls| :: Safe(Join(st.calls[i]), cfg.promptMax, cfg.keys)
  }

  ghost predicate NodeKeeps(cfg: Config, st: State, w: World) {
    match RunNode(cfg, st, w)
    case Goes(st') => StateOk(cfg, st') && CallsOk(cfg, st') && Rank(st') < Rank(st)
    case Raises(st') => CallsOk(cfg, st')
  }

  lemma CreateSessionKeeps(cfg: Config, st: State, w: World)
    requires StateOk(cfg, st) && st.next == CreateSession
    ensures NodeKeeps(cfg, st, w)
  {
    hide GuardPrompt, Safe, Validate, Sound, Join, Messages, Corrective;
  }

  lemma BuildContextKeeps(cfg: Config, st: State, w: World)
    requires StateOk(cfg, st) && st.next == BuildContext
    ensures NodeKeeps(cfg, st, w)
  {
    hide GuardPrompt, Safe, Validate, Sound, Join, Messages, Corrective;
  }

  lemma EnrichKeeps(cfg: Config, st: State, w: World)
    requires StateOk(cfg, st) && st.next == Enrich
    ensures NodeKeeps(cfg, st, w)
  {
    hide GuardPrompt, Safe, Validate, Sound, Join, Messages, Corrective;
  }

  lemma BuildPromptKeeps(cfg: Config, st: State, w: World)
    requires StateOk(cfg, st) && st.next == BuildPrompt
    ensures NodeKeeps(cfg, st, w)
  {
    hide GuardPrompt, Safe, Validate, Sound, Join, Messages, Corrective;
  }

  lemma InputGuardKeeps(cfg: Config, st: State, w: World)
    requires StateOk(cfg, st) && st.next == InputGuard
    ensures NodeKeeps(cfg, st, w)
  {
    hide GuardPrompt, Safe, Validate, Sound, Join, Messages, Corrective;
    if st.messages.Some? { GuardLetsSafeTextThrough(Join(st.messages.value), cfg.promptMax, cfg.keys); }
  }

  lemma CallLlmKeeps(cfg: Config, st: State, w: World)
    requires StateOk(cfg, st) && st.next == CallLlm
    ensures NodeKeeps(cfg, st, w)
  {
    hide GuardPrompt, Safe, Validate, Sound, Join, Messages, Corrective;
  }

  lemma ValidateVerdictKeeps(cfg: Config, st: State, w: World)
    requires StateOk(cfg, st) && st.next == ValidateVerdict
    ensures NodeKeeps(cfg, st, w)
  {
    hide GuardPrompt, Safe, Validate, Sound, Join, Messages, Corrective;
    ValidVerdictsAreSound(cfg, st.response);
  }

  lemma RetryPromptKeeps(cfg: Config, st: State, w: World)
    requires StateOk(cfg, st) && st.next == RetryPrompt
    ensures NodeKeeps(cfg, st, w)
  {
    hide GuardPrompt, Safe, Validate, Sound, Join, Messages, Corrective;
  }

  lemma CompleteSessionKeeps(cfg: Config, st: State, w: World)
    requires StateOk(cfg, st) && st.next == CompleteSession
    ensures NodeKeeps(cfg, st, w)
  {
    hide GuardPrompt, Safe, Validate, Sound, Join, Messages, Corrective;
  }

  lemma NodeOk(cfg: Config, st: State, w: World)
    requires StateOk(cfg, st) && !st.next.End?
    ensures NodeKeeps(cfg, st, w)
  {
    hide StateOk, NodeKeeps;
    match st.next
    case CreateSession => CreateSessionKeeps(cfg, st, w);
    case BuildContext => BuildContextKeeps(cfg, st, w);
    case Enrich => EnrichKeeps(cfg, st, w);
    case BuildPrompt => BuildPromptKeeps(cfg, st, w);
    case InputGuard => InputGuardKeeps(cfg, st, w);
    case CallLlm => CallLlmKeeps(cfg, st, w);
    case ValidateVerdict => ValidateVerdictKeeps(cfg, st, w);
    case RetryPrompt => RetryPromptKeeps(cfg, st, w);
    case CompleteSession => CompleteSessionKeeps(cfg, st, w);
  }

  // ----- Whole runs -----

  /** The graph from `st` on; `env(n)` is what the outside does at the n-th node. */
  function Run(cfg: Config, st: State, env: nat -> World): Step
    requires StateOk(cfg, st)
    decreases Rank(st)
  {
    if st.next.End? then Goes(st)
    else
      NodeOk(cfg, st, env(st.visited));
      match RunNode(cfg, st, env(st.visited))
      case Goes(st') => Run(cfg, st', env)
      case Raises(st') => Raises(st')
  }

  /** What scoring answers: an exception is a failed audit. */
  function Outcome(r: Step): F.Outcome {
    if r.Goes? && r.state.outcome.Some? then r.state.outcome.value else Failed("audit_failed")
  }

  lemma {:induction false} RunOk(cfg: Config, st: State, env: nat -> World)
    requires StateOk(cfg, st) && CallsOk(cfg, st)
    ensures var r := Run(cfg, st, env);
      CallsOk(cfg, r.state) && (r.Goes? ==> r.state.next.End? && StateOk(cfg, r.state))
    decreases Rank(st)
  {
    hide StateOk, CallsOk, RunNode, Rank;
    if !st.next.End? {
      NodeOk(cfg, st, env(st.visited));
      match RunNode(cfg, st, env(st.visited))
      case Goes(st') => RunOk(cfg, st', env);
      case Raises(_) =>
    }
  }

  /** The session a run found was already completed. */
  ghost predicate FoundCompleted(r: Step) {
    r.Goes? && r.state.session.Some? && r.state.session.value.completed.Some?
  }

  /** For every behaviour of the store, the enrichment services and the model: at most twelve
      nodes and two model calls, each call with text that is not blank, not too long, and holds no UUID and no sensitive key; a newly scored
      action is the canonical action of the verdict validated from an answer of the model, any
      other result has no action and a known reason; and the result is what was stored, unless
      the audit failed. */
  lemma ScoringIsBounded(cfg: Config, env: nat -> World)
    ensures StateOk(cfg, START)
    ensures var r := Run(cfg, START, env); var o := Outcome(r);
      && CallsOk(cfg, r.state)
      && (if FoundCompleted(r) then o == r.state.session.value.completed.value
          else
            && Scored(cfg, o) && (r.Goes? && o != Failed("audit_failed") ==> r.state.stored == Some(o))
            && (o.action.Some? ==> exists a | a in r.state.answers :: Validate(cfg, a).verdict == o.verdict))
  {
    StartOk(cfg);
    RunOk(cfg, START, env);
  }

  /** The model is called with exactly the messages that last passed the guard. */
  lemma ModelSeesAcceptedMessages(cfg: Config, st: State, w: World)
    requires StateOk(cfg, st) && st.next.CallLlm?
    ensures st.accepted.Some? && RunNode(cfg, st, w).state.calls == st.calls + [st.accepted.value]
    ensures Safe(Join(st.accepted.value), cfg.promptMax, cfg.keys)
  {
  }

  // ----- The same in the form of the source -----

  class FraudScoringGraph {
    const cfg: Config
    var session: Option<Session>
    var facts: Option<Facts>
    var prompt: string
    var messages: Option<seq<Message>>
    var response: string
    var validation: Option<Validation>
    var outcome: Option<F.Outcome>
    var attempt: nat
    var next: Node
    var visited: nat
    var accepted: Option<seq<Message>>
    var calls: seq<seq<Message>>
    var answers: seq<string>
    var stored: Option<F.Outcome>

    constructor (cfg: Config)
      ensures this.cfg == cfg && View() == START
    {
      this.cfg := cfg;
      session, facts, prompt, messages, response, validation, outcome := None, None, "", None, "", None, None;
      attempt, next, visited, accepted, calls, answers, stored := 1, CreateSession, 0, None, [], [], None;
    }

    function View(): State
      reads this
    {
      State(session, facts, prompt, messages, response, validation, outcome, attempt, next, visited, accepted, calls, answers, stored)
    }

    /** The node's effect, and whether it raised nothing. */
    twostate predicate Does(w: World, ok: bool)
      reads this
    {
      RunNode(cfg, old(View()), w) == if ok then Goes(View()) else Raises(View())
    }

    method NodeCreateSession(w: World) returns (ok: bool)
      requires next == CreateSession
      modifies this
      ensures Does(w, ok)
    {
      hide Corrective, Messages, GuardPrompt, Validate;
      visited := visited + 1;
      if w.claim.None? || !w.audit { return false; }
      session := w.claim;
      if session.value.completed.Some? {
        outcome := session.value.completed;
        next := End;
      } else {
        next := BuildContext;
      }
      return true;
    }

    method NodeBuildContext(w: World) returns (ok: bool)
      requires next == BuildContext
      modifies this
      ensures Does(w, ok)
    {
      visited := visited + 1;
      if !Audited(View(), w) { return false; }
      next := Enrich;
      return true;
    }

    method EndWith(reason: string)
      modifies `outcome, `next
      ensures View() == Ends(old(View()), reason)
    {
      outcome := Some(Failed(reason));
      next := CompleteSession;
    }

    method NodeEnrich(w: World) returns (ok: bool)
      requires next == Enrich
      modifies this
      ensures Does(w, ok)
    {
      visited := visited + 1;
      ok := true;
      if w.facts.None? {
        EndWith("enrichment_failed");
        return;
      }
      facts := w.facts;
      if Audited(View(), w) { next := BuildPrompt; } else { EndWith("enrichment_failed"); }
    }

    method SetPrompt(text: string)
      modifies `prompt, `messages
      ensures View() == old(View()).(prompt := text, messages := Some(Messages(cfg, text)))
    {
      prompt := text;
      messages := Some(Messages(cfg, text));
    }

    method NodeBuildPrompt(w: World) returns (ok: bool)
      requires next == BuildPrompt
      modifies this
      ensures Does(w, ok)
    {
      hide Corrective, Messages, GuardPrompt, Validate;
      visited := visited + 1;
      if facts.None? || !Audited(View(), w) { return false; }
      SetPrompt(facts.value.header + facts.value.sentence);
      next := InputGuard;
      return true;
    }

    method NodeInputGuard(w: World) returns (ok: bool)
      requires next == InputGuard
      modifies this
      ensures Does(w, ok)
    {
      visited := visited + 1;
      if messages.None? || !Audited(View(), w) { return false; }
      var rejection := GuardPrompt(Join(messages.value), cfg.promptMax, cfg.keys);
      if rejection.None? {
        accepted := messages;
        next := CallLlm;
      } else {
        EndWith("prompt_rejected");
      }
      return true;
    }

    method NodeCallLlm(w: World) returns (ok: bool)
      requires next == CallLlm
      modifies this
      ensures Does(w, ok)
    {
      hide Corrective, Messages, GuardPrompt, Validate;
      visited := visited + 1;
      if messages.None? { return false; }
      calls := calls + [messages.value];
      if !Audited(View(), w) { return false; }
      if w.response.None? {
        EndWith("model_failed");
      } else {
        response, answers, next := w.response.value, answers + [w.response.value], ValidateVerdict;
      }
      return true;
    }

    method NodeValidateVerdict(w: World) returns (ok: bool)
      requires next == ValidateVerdict
      modifies this
      ensures Does(w, ok)
    {
      hide Corrective, Messages, GuardPrompt, Validate;
      visited := visited + 1;
      if !Audited(View(), w) { return false; }
      var v := Validate(cfg, response);
      validation := Some(v);
      if v.verdict.Some? {
        outcome := Some(F.Outcome(Some(v.verdict.value.action), v.verdict, None));
        next := CompleteSession;
      } else if attempt == 1 {
        next := RetryPrompt;
      } else {
        EndWith("validation_failed");
      }
      return true;
    }

    method NodeRetryPrompt(w: World) returns (ok: bool)
      requires next == RetryPrompt
      modifies this
      ensures Does(w, ok)
    {
      hide Corrective, Messages, GuardPrompt, Validate;
      visited := visited + 1;
      if facts.None? || validation.None? || !Audited(View(), w) { return false; }
      SetPrompt(Corrective(validation.value.rejection) + "\nSanitized facts: " + facts.value.sentence);
      response, attempt, next := "", 2, InputGuard;
      return true;
    }

    method NodeCompleteSession(w: World) returns (ok: bool)
      requires next == CompleteSession
      modifies this
      ensures Does(w, ok)
    {
      hide Corrective, Messages, GuardPrompt, Validate;
      visited := visited + 1;
      if session.None? {
        outcome := Some(Failed("audit_failed"));
        next := End;
        return true;
      }
      if !w.audit || !w.complete { return false; }
      if outcome.None? { outcome := Some(Failed("audit_failed")); }
      stored := outcome;
      next := End;
      return true;
    }

    method Node(w: World) returns (ok: bool)
      requires next != End
      modifies this
      ensures Does(w, ok)
    {
      hide RunNode;
      match next
      case CreateSession => ok := NodeCreateSession(w);
      case BuildContext => ok := NodeBuildContext(w);
      case Enrich => ok := NodeEnrich(w);
      case BuildPrompt => ok := NodeBuildPrompt(w);
      case InputGuard => ok := NodeInputGuard(w);
      case CallLlm => ok := NodeCallLlm(w);
      case ValidateVerdict => ok := NodeValidateVerdict(w);
      case RetryPrompt => ok := NodeRetryPrompt(w);
      case CompleteSession => ok := NodeCompleteSession(w);
    }

    /** Follow the edges until the end or an exception. */
    method Score(env: nat -> World) returns (o: F.Outcome)
      requires StateOk(cfg, View())
      modifies this
      ensures var r := Run(cfg, old(View()), env); o == Outcome(r) && View() == r.state
    {
      hide RunNode, StateOk, Rank;
      while next != End
        invariant StateOk(cfg, View()) && Run(cfg, old(View()), env) == Run(cfg, View(), env)
        decreases Rank(View())
      {
        NodeOk(cfg, View(), env(visited));
        var ok := Node(env(visited));
        if !ok { return Failed("audit_failed"); }
      }
      return if outcome.Some? then outcome.value else Failed("audit_failed");
    }
  }
}
