/** The scoring graph when the session store works: what it answers, stores and asks the model, for
    every prompt and every answer or failure of the model. */
module ScoringRuns {
  import opened Domain
  import opened FraudGraph
  import F = FraudLease

  /** A new session, every audit and the completion go through, and the enrichment gives `facts`. */
  ghost predicate Healthy(env: nat -> World, facts: Option<Facts>) {
    && env(0).claim == Some(Session(None)) && env(2).facts == facts
    && forall i: nat :: env(i).audit && env(i).complete
  }

  lemma OneNode(cfg: Config, st: State, env: nat -> World, st1: State)
    requires StateOk(cfg, st) && !st.next.End? && RunNode(cfg, st, env(st.visited)) == Goes(st1)
    ensures StateOk(cfg, st1) && Run(cfg, st, env) == Run(cfg, st1, env)
  {
    hide StateOk, RunNode, Rank;
    NodeOk(cfg, st, env(st.visited));
  }

  /** What scoring has come to: the answer, which is also what is stored, and the calls it took. */
  ghost predicate Answers(r: Step, o: F.Outcome, calls: seq<seq<Message>>) {
    r.Goes? && Outcome(r) == o && r.state.stored == Some(o) && r.state.calls == calls
  }

  lemma CompletionEnds(cfg: Config, st: State, env: nat -> World, facts: Option<Facts>)
    requires StateOk(cfg, st) && Healthy(env, facts) && st.next == CompleteSession && st.session == Some(Session(None)) && st.outcome.Some?
    ensures Answers(Run(cfg, st, env), st.outcome.value, st.calls)
  {
    hide StateOk;
    var done := st.(visited := st.visited + 1, stored := st.outcome, next := End);
    OneNode(cfg, st, env, done);
  }

  // ----- Up to the first prompt -----

  function Prompt(facts: Facts): string { facts.header + facts.sentence }

  function Prompted(cfg: Config, facts: Facts): State {
    START.(session := Some(Session(None)), facts := Some(facts), prompt := Prompt(facts),
           messages := Some(Messages(cfg, Prompt(facts))), next := InputGuard, visited := 4)
  }

  lemma ReachesEnrichment(cfg: Config, env: nat -> World, facts: Option<Facts>)
    requires Healthy(env, facts)
    ensures var st := START.(session := Some(Session(None)), next := Enrich, visited := 2);
      StateOk(cfg, START) && StateOk(cfg, st) && Run(cfg, START, env) == Run(cfg, st, env)
  {
    hide StateOk;
    StartOk(cfg);
    var st1 := START.(session := Some(Session(None)), next := BuildContext, visited := 1);
    OneNode(cfg, START, env, st1);
    OneNode(cfg, st1, env, st1.(next := Enrich, visited := 2));
  }

  lemma ReachesGuard(cfg: Config, env: nat -> World, facts: Facts)
    requires Healthy(env, Some(facts))
    ensures StateOk(cfg, START) && StateOk(cfg, Prompted(cfg, facts)) && Run(cfg, START, env) == Run(cfg, Prompted(cfg, facts), env)
  {
    hide StateOk, Messages;
    ReachesEnrichment(cfg, env, Some(facts));
    var st2 := START.(session := Some(Session(None)), next := Enrich, visited := 2);
    var st3 := st2.(facts := Some(facts), next := BuildPrompt, visited := 3);
    OneNode(cfg, st2, env, st3);
    OneNode(cfg, st3, env, Prompted(cfg, facts));
  }

  // ----- One round with the model -----

  ghost predicate MaySend(cfg: Config, messages: seq<Message>) {
    Safe(Join(messages), cfg.promptMax, cfg.keys)
  }

  /** The state after the model answered to the messages in `st`. */
  function Heard(st: State, answer: string): State
    requires st.messages.Some?
  {
    st.(accepted := st.messages, calls := st.calls + [st.messages.value], response := answer, answers := st.answers + [answer],
        next := ValidateVerdict, visited := st.visited + 2)
  }

  /** From the guard: a prompt that may not be sent ends the run, so does a model that fails, and an
      answer goes to the validator. */
  lemma Round(cfg: Config, st: State, env: nat -> World, facts: Option<Facts>)
    requires StateOk(cfg, st) && Healthy(env, facts) && st.next == InputGuard && st.session == Some(Session(None)) && st.messages.Some?
    ensures var m := st.messages.value; var answer := env(st.visited + 1).response;
      if !MaySend(cfg, m) then Answers(Run(cfg, st, env), Failed("prompt_rejected"), st.calls)
      else if answer.None? then Answers(Run(cfg, st, env), Failed("model_failed"), st.calls + [m])
      else StateOk(cfg, Heard(st, answer.value)) && Run(cfg, st, env) == Run(cfg, Heard(st, answer.value), env)
  {
    hide StateOk, GuardPrompt, Safe, Join;
    var m := st.messages.value;
    var answer := env(st.visited + 1).response;
    GuardLetsSafeTextThrough(Join(m), cfg.promptMax, cfg.keys);
    if !MaySend(cfg, m) {
      var st1 := Ends(st.(visited := st.visited + 1), "prompt_rejected");
      OneNode(cfg, st, env, st1);
      CompletionEnds(cfg, st1, env, facts);
    } else {
      var st1 := st.(visited := st.visited + 1, accepted := st.messages, next := CallLlm);
      OneNode(cfg, st, env, st1);
      var called := st1.(visited := st.visited + 2, calls := st.calls + [m]);
      if answer.None? {
        OneNode(cfg, st1, env, Ends(called, "model_failed"));
        CompletionEnds(cfg, Ends(called, "model_failed"), env, facts);
      } else {
        OneNode(cfg, st1, env, Heard(st, answer.value));
      }
    }
  }

  function Verdict(v: F.Verdict): F.Outcome { F.Outcome(Some(v.action), Some(v), None) }

  /** A usable answer decides. */
  lemma Accepts(cfg: Config, st: State, env: nat -> World, facts: Option<Facts>)
    requires StateOk(cfg, st) && Healthy(env, facts) && st.next == ValidateVerdict && st.session == Some(Session(None)) && Usable(cfg, st.response)
    ensures Validate(cfg, st.response).verdict.Some?
    ensures Answers(Run(cfg, st, env), Verdict(Validate(cfg, st.response).verdict.value), st.calls)
  {
    hide StateOk, Usable, Validate;
    ValidatesUsableAnswers(cfg, st.response);
    var v := Validate(cfg, st.response);
    var st1 := st.(visited := st.visited + 1, validation := Some(v), outcome := Some(Verdict(v.verdict.value)), next := CompleteSession);
    OneNode(cfg, st, env, st1);
    CompletionEnds(cfg, st1, env, facts);
  }

  // ----- The second round -----

  function RetryText(cfg: Config, facts: Facts, first: string): string {
    Corrective(Validate(cfg, first).rejection) + "\nSanitized facts: " + facts.sentence
  }

  function RetryMessages(cfg: Config, facts: Facts, first: string): seq<Message> {
    Messages(cfg, RetryText(cfg, facts, first))
  }

  /** The first answer was not usable: the graph asks once more. */
  lemma AsksAgain(cfg: Config, st: State, env: nat -> World, facts: Facts)
    requires StateOk(cfg, st) && Healthy(env, Some(facts)) && st.next == ValidateVerdict && st.attempt == 1 && st.facts == Some(facts)
    requires !Usable(cfg, st.response)
    ensures var m := RetryMessages(cfg, facts, st.response);
      var st' := st.(validation := Some(Validate(cfg, st.response)), prompt := RetryText(cfg, facts, st.response), messages := Some(m),
                     response := "", attempt := 2, next := InputGuard, visited := st.visited + 2);
      StateOk(cfg, st') && Run(cfg, st, env) == Run(cfg, st', env)
  {
    hide StateOk, Usable, Validate, Messages, Corrective;
    ValidatesUsableAnswers(cfg, st.response);
    var v := Validate(cfg, st.response);
    var st1 := st.(visited := st.visited + 1, validation := Some(v), next := RetryPrompt);
    OneNode(cfg, st, env, st1);
    var text := RetryText(cfg, facts, st.response);
    OneNode(cfg, st1, env, st1.(prompt := text, messages := Some(Messages(cfg, text)), response := "", attempt := 2, next := InputGuard, visited := st.visited + 2));
  }

  lemma GivesUp(cfg: Config, st: State, env: nat -> World, facts: Option<Facts>)
    requires StateOk(cfg, st) && Healthy(env, facts) && st.next == ValidateVerdict && st.attempt == 2 && st.session == Some(Session(None))
    requires !Usable(cfg, st.response)
    ensures Answers(Run(cfg, st, env), Failed("validation_failed"), st.calls)
  {
    hide StateOk, Usable, Validate;
    ValidatesUsableAnswers(cfg, st.response);
    var v := Validate(cfg, st.response);
    var st1 := Ends(st.(visited := st.visited + 1, validation := Some(v)), "validation_failed");
    OneNode(cfg, st, env, st1);
    CompletionEnds(cfg, st1, env, facts);
  }

  // ----- Whole runs -----

  /** What the second round comes to, after `calls` and an unusable `first` answer. */
  ghost predicate SecondRound(cfg: Config, facts: Facts, first: string, second: Option<string>, calls: seq<seq<Message>>, r: Step) {
    var m := RetryMessages(cfg, facts, first);
    if !MaySend(cfg, m) then Answers(r, Failed("prompt_rejected"), calls)
    else if second.None? then Answers(r, Failed("model_failed"), calls + [m])
    else if Usable(cfg, second.value) then
      Validate(cfg, second.value).verdict.Some? && Answers(r, Verdict(Validate(cfg, second.value).verdict.value), calls + [m])
    else Answers(r, Failed("validation_failed"), calls + [m])
  }

  lemma SecondRoundEnds(cfg: Config, st: State, env: nat -> World, facts: Facts)
    requires StateOk(cfg, st) && Healthy(env, Some(facts)) && st.next == ValidateVerdict && st.attempt == 1 && st.facts == Some(facts)
    requires st.session == Some(Session(None)) && st.visited == 6 && !Usable(cfg, st.response)
    ensures SecondRound(cfg, facts, st.response, env(9).response, st.calls, Run(cfg, st, env))
  {
    hide StateOk, Usable, Validate, Healthy, MaySend, Messages, Answers, RetryText, Corrective;
    AsksAgain(cfg, st, env, facts);
    var m := RetryMessages(cfg, facts, st.response);
    var st1 := st.(validation := Some(Validate(cfg, st.response)), prompt := RetryText(cfg, facts, st.response), messages := Some(m),
                   response := "", attempt := 2, next := InputGuard, visited := 8);
    Round(cfg, st1, env, Some(facts));
    var second := env(9).response;
    if MaySend(cfg, m) && second.Some? {
      if Usable(cfg, second.value) { Accepts(cfg, Heard(st1, second.value), env, Some(facts)); }
      else { GivesUp(cfg, Heard(st1, second.value), env, Some(facts)); }
    }
  }

  /** With a working store and an enrichment: the model is asked with the prompt of the facts, if that
      may be sent; its first usable answer decides, by its own verdict; after one that is not usable
      it is asked once more, with the reason; and otherwise there is no action, and the reason says
      what failed. The answer is what is stored. */
  lemma ScoringOutcome(cfg: Config, env: nat -> World, facts: Facts)
    requires Healthy(env, Some(facts))
    ensures StateOk(cfg, START)
    ensures var r := Run(cfg, START, env); var m := Messages(cfg, Prompt(facts)); var first := env(5).response;
      if !MaySend(cfg, m) then Answers(r, Failed("prompt_rejected"), [])
      else if first.None? then Answers(r, Failed("model_failed"), [m])
      else if Usable(cfg, first.value) then
        Validate(cfg, first.value).verdict.Some? && Answers(r, Verdict(Validate(cfg, first.value).verdict.value), [m])
      else SecondRound(cfg, facts, first.value, env(9).response, [m], r)
  {
    hide StateOk, Usable, Validate, Healthy, MaySend, Messages, Answers, SecondRound, Corrective;
    ReachesGuard(cfg, env, facts);
    var st := Prompted(cfg, facts);
    Round(cfg, st, env, Some(facts));
    var m := Messages(cfg, Prompt(facts));
    assert st.calls + [m] == [m];
    var first := env(5).response;
    if MaySend(cfg, m) && first.Some? {
      if Usable(cfg, first.value) { Accepts(cfg, Heard(st, first.value), env, Some(facts)); }
      else { SecondRoundEnds(cfg, Heard(st, first.value), env, facts); }
    }
  }

  /** Without the enrichment nothing is asked, and the failure is stored. */
  lemma EnrichmentFails(cfg: Config, env: nat -> World)
    requires Healthy(env, None)
    ensures StateOk(cfg, START) && Answers(Run(cfg, START, env), Failed("enrichment_failed"), [])
  {
    hide StateOk;
    ReachesEnrichment(cfg, env, None);
    var st := START.(session := Some(Session(None)), next := Enrich, visited := 2);
    var st1 := Ends(st.(visited := 3), "enrichment_failed");
    OneNode(cfg, st, env, st1);
    CompletionEnds(cfg, st1, env, None);
  }
}
