/** What runs of the conversational graph come to, path by path: which nodes they visit and
  * what they leave.  The bounds of AgentGraph are attained here. */
module AgentRuns {
  import opened Basics
  import opened DeliveryTables
  import opened AgentGraph
  import opened AgentEffects

  /** The row is the run's response with this text, waiting to be sent. */
  ghost predicate IsResponseRow(row: OutboxRow, s: GState, text: string) {
    row.key == "response:" + s.runId && row.tenant == s.tenant && row.content == text && row.status.Pending?
  }

  // ----------------------------------------------------------------- runs that end early

  /** A rejected message ends the run at once; an admin command is answered in the state, and
    * counts as sent; a carried-in error ends the run before the agent.  Nothing is written. */
  lemma EarlyEnds(rules: Rules, s: GState, store: Store, envs: nat -> Env)
    ensures var tr := Run(rules, s, store, envs);
            var c := Final(tr);
            && (envs(0).auth.Denied? ==> |tr| == 2 && c.node.End? && c.store == store && c.s.response == s.response)
            && (envs(0).auth.Allowed? ==>
                  |tr| == 3 && c.node.End? && c.store == store && c.s.response == Some(envs(1).adminText) && c.s.sent)
            && (envs(0).auth.NotAdmin? && s.error ==>
                |tr| == 3 && c.node.End? && c.store == store && c.s.response == s.response)
  {
    var tr := Run(rules, s, store, envs);
    TraceShape(rules, Conf(Eligibility, s, store), envs, 0);
    RunStep(rules, s, store, envs, 0);
    RunGoesOn(rules, s, store, envs, 0);
    if !envs(0).auth.Denied? && (s.error || envs(0).auth.Allowed?) {
      RunGoesOn(rules, s, store, envs, 1);
    }
  }

  lemma ToAgent(rules: Rules, s: GState, store: Store, envs: nat -> Env)
    requires envs(0).auth.NotAdmin? && !s.error
    ensures var tr := Run(rules, s, store, envs);
            |tr| > 3 && tr[3] == Conf(Agent, s.(accepted := true, admin := false, step := s.step + 3), store)
  {
    RunStep(rules, s, store, envs, 0);
    RunGoesOn(rules, s, store, envs, 0);
    RunGoesOn(rules, s, store, envs, 1);
    RunGoesOn(rules, s, store, envs, 2);
  }

  /** An LLM that raises ends the run with an error and nothing said; a run in which a human was
    * called before asks the LLM and ends there. */
  lemma EndsAtAgent(rules: Rules, s: GState, store: Store, envs: nat -> Env)
    requires envs(0).auth.NotAdmin? && !s.error && s.step + 3 < 10 && (envs(3).reply.Raises? || s.hitl)
    ensures var tr := Run(rules, s, store, envs);
            |tr| == 5 && Final(tr).node.End? && Final(tr).store == store && Final(tr).s.error == envs(3).reply.Raises?
  {
    ToAgent(rules, s, store, envs);
    RunGoesOn(rules, s, store, envs, 3);
    TraceShape(rules, Conf(Eligibility, s, store), envs, 0);
  }

  // ------------------------------------------------------------------ from agent to end

  /** Nothing has gone wrong, and nothing has been sent. */
  ghost predicate Open(s0: GState, c: Conf) {
    && !c.s.error && !c.s.hitl && !c.s.sent
    && c.s.tenant == s0.tenant && c.s.runId == s0.runId && c.s.history == s0.history
  }

  /** A final answer is what the LLM says, verbatim. */
  lemma AgentAnswers(rules: Rules, s0: GState, c: Conf, e: Env, text: string)
    requires c.node.Agent? && Open(s0, c) && c.s.step < 10 && e.reply == Says(Some(text), []) && text != ""
    ensures var c' := Visit(rules, c, e);
            && c'.node.Guardrails? && Open(s0, c') && c'.s.response == Some(text) && c'.store == c.store
            && c'.s.messages == c.s.messages + [Assistant(text, [])]
  {
  }

  /** Out of steps, the agent gives up without asking the LLM. */
  lemma AgentGivesUp(rules: Rules, s0: GState, c: Conf, e: Env)
    requires c.node.Agent? && Open(s0, c) && c.s.step >= 10
    ensures var c' := Visit(rules, c, e);
            && c'.node.Guardrails? && Open(s0, c') && c'.s.response == Some(rules.texts.gaveUp) && c'.store == c.store
            && c'.s.messages == c.s.messages
  {
  }

  /** Below ten steps, an answer with calls leads to the tools and back. */
  lemma AgentCallsTools(rules: Rules, s0: GState, c: Conf, e: Env, f: Env)
    requires c.node.Agent? && Open(s0, c) && c.s.step < 10 && e.reply.Says? && |e.reply.calls| > 0
    ensures var c' := Visit(rules, c, e);
            && c'.node.Tools? && Open(s0, c') && c'.s.step == c.s.step + 1 && c'.s.pending == e.reply.calls
            && c'.s.messages == c.s.messages + [Assistant(Text(e.reply.text), CallIds(e.reply.calls))]
  {
  }

  lemma ToolsReturn(rules: Rules, s0: GState, c: Conf, e: Env)
    requires c.node.Tools? && Open(s0, c)
    ensures var c' := Visit(rules, c, e);
            c'.node.Agent? && Open(s0, c') && c'.s.step == c.s.step + 1 && c'.s.pending == []
  {
  }

  lemma ToDispatch(rules: Rules, s0: GState, c: Conf, e: Env)
    requires c.node.Guardrails? && Open(s0, c) && Passed(rules, c.s.response, c.s.history).Some?
    ensures var c' := Visit(rules, c, e);
            c'.node.Dispatch? && !c'.s.error && !c'.s.sent && c'.s.response == Passed(rules, c.s.response, c.s.history)
  {
    GuardrailsExactly(rules, c.s);
    GuardrailsFrame(rules, c, e);
  }

  /** Once guardrails lets a text through, three nodes remain, and the outbox has the response. */
  lemma SendsAndEnds(rules: Rules, s: GState, store: Store, envs: nat -> Env, i: nat, text: string)
    requires i < |Run(rules, s, store, envs)| && Run(rules, s, store, envs)[i].node.Guardrails?
    requires Open(s, Run(rules, s, store, envs)[i]) && text != "" && !envs(i + 1).dispatchFails
    requires var c := Run(rules, s, store, envs)[i];
             Passed(rules, c.s.response, c.s.history) == Some(text)
    ensures var tr := Run(rules, s, store, envs);
            var was, out := tr[i].store.outbox, Final(tr).store.outbox;
            && |tr| == i + 4 && Final(tr).node.End? && Final(tr).s.sent
            && tr[i + 1].node.Dispatch? && tr[i + 2].node.Memory?
            && (if HasKey(was, s.tenant, "response:" + s.runId) then out == was
                else |out| == |was| + 1 && out[..|was|] == was && IsResponseRow(out[|was|], s, text))
  {
    var tr := Run(rules, s, store, envs);
    RunGoesOn(rules, s, store, envs, i);
    ToDispatch(rules, s, tr[i], envs(i));
    RunGoesOn(rules, s, store, envs, i + 1);
    ResponseExactly(rules, tr[i], envs(i), envs(i + 1));
    DispatchSucceeds(rules, tr[i + 1], envs(i + 1));
    RunGoesOn(rules, s, store, envs, i + 2);
    TraceShape(rules, Conf(Eligibility, s, store), envs, 0);
  }

  lemma DispatchSucceeds(rules: Rules, c: Conf, e: Env)
    requires c.node.Dispatch? && !c.s.error && !c.s.sent && Truthy(c.s.response) && !e.dispatchFails
    ensures Visit(rules, c, e).node.Memory? && Visit(rules, c, e).s.sent
  {
  }

  // ---------------------------------------------------------------- runs that go through

  predicate Untroubled(s: GState) {
    !s.error && !s.hitl && !s.sent
  }

  /** A message that the LLM answers at once, with a text that guardrails lets through, is
    * answered after seven nodes: one response in the outbox, one message in the transcript. */
  lemma AnswersAtOnce(rules: Rules, s: GState, store: Store, envs: nat -> Env, text: string, sent: string)
    requires Untroubled(s) && s.step + 3 < 10 && envs(0).auth.NotAdmin? && envs(3).reply == Says(Some(text), [])
             && text != ""
    requires Passed(rules, Some(text), s.history) == Some(sent) && sent != "" && !envs(5).dispatchFails
    ensures var tr := Run(rules, s, store, envs);
            var out := Final(tr).store.outbox;
            && |tr| == 8 && Final(tr).node.End? && Final(tr).s.sent
            && tr[4].s.messages == s.messages + [Assistant(text, [])]
            && (if HasKey(store.outbox, s.tenant, "response:" + s.runId) then out == store.outbox
                else |out| == |store.outbox| + 1 && out[..|store.outbox|] == store.outbox
                     && IsResponseRow(out[|store.outbox|], s, sent))
  {
    var tr := Run(rules, s, store, envs);
    ToAgent(rules, s, store, envs);
    RunGoesOn(rules, s, store, envs, 3);
    AgentAnswers(rules, s, tr[3], envs(3), text);
    SendsAndEnds(rules, s, store, envs, 4, sent);
  }

  /** Such a run whose insert fails leaves the graph at its sixth node by the unmapped route. */
  lemma UnmappedRun(rules: Rules, s: GState, store: Store, envs: nat -> Env, text: string, sent: string)
    requires Untroubled(s) && s.step + 3 < 10 && envs(0).auth.NotAdmin? && envs(3).reply == Says(Some(text), [])
             && text != ""
    requires Passed(rules, Some(text), s.history) == Some(sent) && sent != "" && envs(5).dispatchFails
    ensures var tr := Run(rules, s, store, envs);
            |tr| == 7 && DispatchBreaks(tr[5], envs(5)) && Final(tr).node.Unmapped? && Final(tr).store == store
  {
    var tr := Run(rules, s, store, envs);
    ToAgent(rules, s, store, envs);
    RunGoesOn(rules, s, store, envs, 3);
    AgentAnswers(rules, s, tr[3], envs(3), text);
    RunGoesOn(rules, s, store, envs, 4);
    ToDispatch(rules, s, tr[4], envs(4));
    GuardrailsFrame(rules, tr[4], envs(4));
    RunGoesOn(rules, s, store, envs, 5);
    DispatchFails(rules, tr[5], envs(5));
    TraceShape(rules, Conf(Eligibility, s, store), envs, 0);
  }

  lemma DispatchFails(rules: Rules, c: Conf, e: Env)
    requires c.node.Dispatch? && !c.s.error && !c.s.sent && Truthy(c.s.response) && e.dispatchFails
    ensures DispatchBreaks(c, e) && Visit(rules, c, e).node.Unmapped? && Visit(rules, c, e).store == c.store
  {
  }

  /** A text that repeats or hedges goes to a human: two more nodes, and no response. */
  lemma EscalatesAndEnds(rules: Rules, s: GState, store: Store, envs: nat -> Env, i: nat)
    requires i < |Run(rules, s, store, envs)| && Run(rules, s, store, envs)[i].node.Guardrails?
    requires Open(s, Run(rules, s, store, envs)[i]) && Truthy(Run(rules, s, store, envs)[i].s.response)
    requires var t := rules.strip(Run(rules, s, store, envs)[i].s.response.value);
             !rules.blocked(t) && (Repeats(rules, t, s.history) || rules.unsure(t))
    ensures var tr := Run(rules, s, store, envs);
            |tr| == i + 3 && tr[i + 1].node.Hitl? && Final(tr).node.End? && Final(tr).s.hitl
              && Final(tr).store == tr[i].store
  {
    var tr := Run(rules, s, store, envs);
    RunGoesOn(rules, s, store, envs, i);
    ToHuman(rules, s, tr[i], envs(i));
    RunGoesOn(rules, s, store, envs, i + 1);
    HumanEnds(rules, tr[i + 1], envs(i + 1));
    TraceShape(rules, Conf(Eligibility, s, store), envs, 0);
  }

  lemma ToHuman(rules: Rules, s0: GState, c: Conf, e: Env)
    requires c.node.Guardrails? && Open(s0, c) && Truthy(c.s.response)
    requires var t := rules.strip(c.s.response.value);
             !rules.blocked(t) && (Repeats(rules, t, c.s.history) || rules.unsure(t))
    ensures Visit(rules, c, e).node.Hitl? && Visit(rules, c, e).s.hitl && Visit(rules, c, e).store == c.store
  {
    GuardrailsExactly(rules, c.s);
    GuardrailsFrame(rules, c, e);
  }

  lemma HumanEnds(rules: Rules, c: Conf, e: Env)
    requires c.node.Hitl?
    ensures Visit(rules, c, e).node.End? && Visit(rules, c, e).s.hitl && Visit(rules, c, e).store == c.store
  {
  }

  lemma ToolRound(rules: Rules, s: GState, store: Store, envs: nat -> Env, i: nat)
    requires i < |Run(rules, s, store, envs)| && Run(rules, s, store, envs)[i].node.Agent?
    requires Open(s, Run(rules, s, store, envs)[i]) && Run(rules, s, store, envs)[i].s.step < 10
    requires envs(i).reply.Says? && |envs(i).reply.calls| > 0
    ensures var tr := Run(rules, s, store, envs);
            |tr| > i + 2 && tr[i + 2].node.Agent? && Open(s, tr[i + 2]) && tr[i + 2].s.step == tr[i].s.step + 2
              && CallsLlm(tr[i])
  {
    var tr := Run(rules, s, store, envs);
    RunGoesOn(rules, s, store, envs, i);
    AgentCallsTools(rules, s, tr[i], envs(i), envs(i + 1));
    RunGoesOn(rules, s, store, envs, i + 1);
    ToolsReturn(rules, s, tr[i + 1], envs(i + 1));
  }

  lemma {:induction false} CallsFrom(tr: seq<Conf>, i: nat, j: nat)
    requires i <= j <= |tr|
    ensures LlmCalls(tr[j..]) <= LlmCalls(tr[i..])
    ensures i < j && CallsLlm(tr[i]) ==> 1 + LlmCalls(tr[j..]) <= LlmCalls(tr[i..])
    decreases j - i
  {
    if i < j {
      assert tr[i..][1..] == tr[i + 1..];
      CallsFrom(tr, i + 1, j);
    }
  }

  /** The bounds are attained: an LLM that only ever calls tools is asked exactly four times,
    * after which the run gives up, says so and ends after exactly fifteen nodes. */
  lemma RelentlessRun(rules: Rules, s: GState, store: Store, envs: nat -> Env, sent: string)
    requires Untroubled(s) && s.step == 0 && envs(0).auth.NotAdmin?
    requires forall k: nat :: envs(k).reply.Says? && |envs(k).reply.calls| > 0 && !envs(k).dispatchFails
    requires Passed(rules, Some(rules.texts.gaveUp), s.history) == Some(sent) && sent != ""
    ensures var tr := Run(rules, s, store, envs);
            && |tr| == 16 && Final(tr).node.End? && Final(tr).s.sent
            && CallsLlm(tr[3]) && CallsLlm(tr[5]) && CallsLlm(tr[7]) && CallsLlm(tr[9]) && LlmCalls(tr) == 4
            && HasKey(Final(tr).store.outbox, s.tenant, "response:" + s.runId)
  {
    var tr := Run(rules, s, store, envs);
    ToAgent(rules, s, store, envs);
    ToolRound(rules, s, store, envs, 3);
    ToolRound(rules, s, store, envs, 5);
    ToolRound(rules, s, store, envs, 7);
    ToolRound(rules, s, store, envs, 9);
    RunGoesOn(rules, s, store, envs, 11);
    AgentGivesUp(rules, s, tr[11], envs(11));
    SendsAndEnds(rules, s, store, envs, 12, sent);
    CallsFrom(tr, 0, 3);
    CallsFrom(tr, 3, 5);
    CallsFrom(tr, 5, 7);
    CallsFrom(tr, 7, 9);
    CallsFrom(tr, 9, 10);
    assert tr[0..] == tr;
    RunTerminates(rules, s, store, envs);
  }
}
