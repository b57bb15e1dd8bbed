/** Consecutive jobs of one conversation.  The graph is compiled with a checkpointer and the
  * thread is the conversation, so a job starts from the state the last one left: a new run
  * id and the new message, and step count, flags, response and history as they were. */
module Conversation {
  import opened Basics
  import opened Keys
  import opened DeliveryTables
  import opened AgentGraph
  import opened AgentEffects
  import opened AgentRuns

  /** rewinds: if the run leaves the graph by an exception, the checkpoint it leaves is the
    * one before the node that broke it. */
  datatype Job = Job(runId: string, message: Option<string>, envs: nat -> Env, rewinds: bool)

  /** What the conversation has come to, and the agent LLM calls made so far. */
  datatype Talk = Talk(s: GState, store: Store, llmCalls: nat)

  /** The job's initial state merged into the checkpoint. */
  function Resumed(s: GState, job: Job): (r: GState)
    ensures r.step == s.step && r.sent == s.sent && r.error == s.error && r.hitl == s.hitl && r.history == s.history
    ensures r.response == s.response && r.pending == s.pending && r.tenant == s.tenant
    ensures r.runId == job.runId && s.messages <= r.messages
    ensures forall i :: |s.messages| <= i < |r.messages| ==>
            job.message.Some? && r.messages[i] == User(job.message.value)
  {
    s.(runId := job.runId, messages := s.messages + if job.message.Some? then [User(job.message.value)] else [])
  }

  function Checkpoint(tr: seq<Conf>, job: Job): GState
    requires |tr| > 0
  {
    if Final(tr).node.Unmapped? && job.rewinds && |tr| > 1 then tr[|tr| - 2].s else Final(tr).s
  }

  function AfterJob(rules: Rules, t: Talk, job: Job): Talk {
    var tr := Run(rules, Resumed(t.s, job), t.store, job.envs);
    Talk(Checkpoint(tr, job), Final(tr).store, t.llmCalls + LlmCalls(tr))
  }

  function Converse(rules: Rules, t: Talk, jobs: seq<Job>): Talk {
    if |jobs| == 0 then t else AfterJob(rules, Converse(rules, t, jobs[..|jobs| - 1]), jobs[|jobs| - 1])
  }

  // -------------------------------------------------------------------------- LLM calls

  /** LLM calls still possible in this run and in all later ones. */
  function EverLeft(c: Conf): nat {
    match c.node
    case Agent => CallsLeft(c.s.step)
    case Tools => CallsLeft(c.s.step + 1)
    case Context => CallsLeft(c.s.step + 1)
    case Media => CallsLeft(c.s.step + 2)
    case Eligibility => CallsLeft(c.s.step + 3)
    case _ => CallsLeft(c.s.step + 2)
  }

  lemma {:induction false} CallsAreSpent(rules: Rules, c: Conf, envs: nat -> Env, k: nat)
    ensures |Trace(rules, c, envs, k)| > 0
    ensures LlmCalls(Trace(rules, c, envs, k)) + CallsLeft(Final(Trace(rules, c, envs, k)).s.step + 2) <= EverLeft(c)
    decreases VisitsLeft(c)
  {
    FinalStep(rules, c, envs, k);
    if !Terminal(c.node) {
      var c' := Visit(rules, c, envs(k));
      VisitCounts(rules, c, envs(k));
      CallsAreSpent(rules, c', envs, k + 1);
      assert ([c] + Trace(rules, c', envs, k + 1))[1..] == Trace(rules, c', envs, k + 1);
      VisitSpends(rules, c, envs(k));
    } else {
      assert [c][1..] == [];
    }
  }

  lemma VisitSpends(rules: Rules, c: Conf, e: Env)
    requires !Terminal(c.node)
    ensures EverLeft(Visit(rules, c, e)) + (if CallsLlm(c) then 1 else 0) <= EverLeft(c)
  {
    UpdateCounts(rules, c.node, c.s, e);
  }

  lemma JobSpends(rules: Rules, t: Talk, job: Job)
    ensures var t' := AfterJob(rules, t, job);
            t'.llmCalls + CallsLeft(t'.s.step + 3) <= t.llmCalls + CallsLeft(t.s.step + 3)
  {
    var s := Resumed(t.s, job);
    var tr := Run(rules, s, t.store, job.envs);
    CallsAreSpent(rules, Conf(Eligibility, s, t.store), job.envs, 0);
    if |tr| > 1 {
      RunStep(rules, s, t.store, job.envs, |tr| - 1);
      VisitCounts(rules, tr[|tr| - 2], job.envs(|tr| - 2));
    }
  }

  /** All jobs of a conversation together make at most max(0, (8 - s) / 2) agent LLM calls,
    * where s is the step count it began with: four in a new conversation. */
  lemma {:induction false} CallsPerConversation(rules: Rules, t: Talk, jobs: seq<Job>)
    ensures var t' := Converse(rules, t, jobs);
            && t'.llmCalls + CallsLeft(t'.s.step + 3) <= t.llmCalls + CallsLeft(t.s.step + 3)
            && t'.llmCalls <= t.llmCalls + Max(0, 8 - t.s.step) / 2
            && (t.s.step == 0 ==> t'.llmCalls <= t.llmCalls + 4)
  {
    if |jobs| > 0 {
      CallsPerConversation(rules, t, jobs[..|jobs| - 1]);
      JobSpends(rules, Converse(rules, t, jobs[..|jobs| - 1]), jobs[|jobs| - 1]);
    }
  }

  // -------------------------------------------------------------------------- responses

  predicate IsResponse(row: OutboxRow) {
    "response:" <= row.key
  }

  lemma ResponseKeyOf(rules: Rules, s: GState, c: Conf, row: OutboxRow)
    requires RunIdOk(s.runId) && RowExplained(rules, s, c, row) && IsResponse(row)
    ensures row.key == ResponseKey(s.runId) && row.tenant == s.tenant && c.s.sent && !s.sent && AfterDispatch(c.node)
  {
    if CalledKey(c.s.messages, |s.messages|, s.runId, row.key) {
      var id: string :| Called(c.s.messages, |s.messages|, id) && row.key == ToolKey(s.runId, id);
      assert row.key == ResponseKey(row.key[9..]);
      ToolKeyIsNoResponseKey(s.runId, id, row.key[9..]);
      assert false;
    }
  }

  /** Rows from base on hold at most one response, and one only if it is marked as sent. */
  ghost predicate AnsweredOnce(base: nat, s: GState, store: Store) {
    && base <= |store.outbox| && UniqueKeys(store.outbox)
    && (forall j :: base <= j < |store.outbox| && IsResponse(store.outbox[j]) ==> s.sent)
    && (forall j, k :: base <= j < k < |store.outbox| ==> !(IsResponse(store.outbox[j]) && IsResponse(store.outbox[k])))
  }

  /** The response rows of a run: none unless it ends with sent set where it was not. */
  lemma RunAnswersOnce(rules: Rules, s: GState, store: Store, envs: nat -> Env, i: nat)
    requires RunIdOk(s.runId) && UniqueKeys(store.outbox) && i < |Run(rules, s, store, envs)|
    ensures var c := Run(rules, s, store, envs)[i];
            && store.outbox <= c.store.outbox && UniqueKeys(c.store.outbox) && (s.sent ==> c.s.sent)
            && (forall j :: |store.outbox| <= j < |c.store.outbox| && IsResponse(c.store.outbox[j]) ==>
                  !s.sent && c.s.sent && AfterDispatch(c.node))
            && (forall j, k :: |store.outbox| <= j < k < |c.store.outbox| ==>
                  !(IsResponse(c.store.outbox[j]) && IsResponse(c.store.outbox[k])))
  {
    RunExplained(rules, s, store, envs, i);
    var c := Run(rules, s, store, envs)[i];
    forall j | |store.outbox| <= j < |c.store.outbox| && IsResponse(c.store.outbox[j])
      ensures c.store.outbox[j].key == ResponseKey(s.runId) && c.store.outbox[j].tenant == s.tenant && c.s.sent
              && !s.sent
      ensures AfterDispatch(c.node)
    {
      ResponseKeyOf(rules, s, c, c.store.outbox[j]);
    }
  }

  /** A run that breaks at dispatch writes nothing there. */
  lemma BreakWritesNothing(rules: Rules, s: GState, store: Store, envs: nat -> Env)
    requires Final(Run(rules, s, store, envs)).node.Unmapped?
    ensures var tr := Run(rules, s, store, envs);
            |tr| > 1 && tr[|tr| - 2].store == Final(tr).store && tr[|tr| - 2].node.Dispatch?
  {
    var tr := Run(rules, s, store, envs);
    RunStep(rules, s, store, envs, 0);
    RunStep(rules, s, store, envs, |tr| - 1);
    RunStepMaps(rules, s, store, envs, |tr| - 2);
  }

  lemma JobAnswersOnce(rules: Rules, t: Talk, job: Job, base: nat)
    requires RunIdOk(job.runId) && AnsweredOnce(base, t.s, t.store)
    ensures var t' := AfterJob(rules, t, job);
            AnsweredOnce(base, t'.s, t'.store) && t.store.outbox <= t'.store.outbox && (t.s.sent ==> t'.s.sent)
  {
    var s := Resumed(t.s, job);
    var tr := Run(rules, s, t.store, job.envs);
    var n := |tr| - 1;
    RunAnswersOnce(rules, s, t.store, job.envs, n);
    if tr[n].node.Unmapped? {
      BreakWritesNothing(rules, s, t.store, job.envs);
      RunAnswersOnce(rules, s, t.store, job.envs, n - 1);
    }
  }

  /** However many jobs a conversation has, they enqueue at most one response between them,
    * and none if it began with one sent: the flag is never taken back. */
  lemma {:induction false} OneAnswerPerConversation(rules: Rules, t: Talk, jobs: seq<Job>)
    requires UniqueKeys(t.store.outbox) && forall i :: 0 <= i < |jobs| ==> RunIdOk(jobs[i].runId)
    ensures var t' := Converse(rules, t, jobs);
            && t.store.outbox <= t'.store.outbox && (t.s.sent ==> t'.s.sent)
            && AnsweredOnce(|t.store.outbox|, t'.s, t'.store)
            && (t.s.sent ==> forall j :: |t.store.outbox| <= j < |t'.store.outbox| ==> !IsResponse(t'.store.outbox[j]))
  {
    if |jobs| > 0 {
      var init, last := jobs[..|jobs| - 1], jobs[|jobs| - 1];
      OneAnswerPerConversation(rules, t, init);
      var m := Converse(rules, t, init);
      JobAnswersOnce(rules, m, last, |t.store.outbox|);
      if t.s.sent {
        SentSilences(rules, m, last);
      }
    }
  }

  lemma SentSilences(rules: Rules, t: Talk, job: Job)
    requires RunIdOk(job.runId) && UniqueKeys(t.store.outbox) && t.s.sent
    ensures var out := AfterJob(rules, t, job).store.outbox;
            t.store.outbox <= out && forall j :: |t.store.outbox| <= j < |out| ==> !IsResponse(out[j])
  {
    var s := Resumed(t.s, job);
    var tr := Run(rules, s, t.store, job.envs);
    RunAnswersOnce(rules, s, t.store, job.envs, |tr| - 1);
  }

  // ------------------------------------------------------------- the bounds are attained

  lemma {:induction false} ConverseCons(rules: Rules, t: Talk, first: Job, more: seq<Job>)
    ensures Converse(rules, t, [first] + more) == Converse(rules, AfterJob(rules, t, first), more)
  {
    var all := [first] + more;
    if |more| == 0 {
      assert all[..0] == [] && all[0] == first;
    } else {
      assert all[..|all| - 1] == [first] + more[..|more| - 1] && all[|all| - 1] == more[|more| - 1];
      ConverseCons(rules, t, first, more[..|more| - 1]);
    }
  }

  /** The first message that is answered is the last: once a job has enqueued its response, no
    * later job of the conversation enqueues one, and that one stays. */
  lemma FirstAnswerIsLast(rules: Rules, t: Talk, first: Job, more: seq<Job>, text: string, sent: string)
    requires UniqueKeys(t.store.outbox) && RunIdOk(first.runId)
    requires forall i :: 0 <= i < |more| ==> RunIdOk(more[i].runId)
    requires Untroubled(t.s) && t.s.step + 3 < 10 && first.envs(0).auth.NotAdmin? && !first.envs(5).dispatchFails
    requires first.envs(3).reply == Says(Some(text), []) && text != ""
    requires Passed(rules, Some(text), t.s.history) == Some(sent) && sent != ""
    requires !HasKey(t.store.outbox, t.s.tenant, "response:" + first.runId)
    ensures var n, out := |t.store.outbox|, Converse(rules, t, [first] + more).store.outbox;
            && |out| > n && IsResponseRow(out[n], Resumed(t.s, first), sent)
            && forall j :: n < j < |out| ==> !IsResponse(out[j])
  {
    var s, n := Resumed(t.s, first), |t.store.outbox|;
    var t1 := AfterJob(rules, t, first);
    AnswersAtOnce(rules, s, t.store, first.envs, text, sent);
    ConverseCons(rules, t, first, more);
    OneAnswerPerConversation(rules, t, [first]);
    ConverseCons(rules, t, first, []);
    assert [first] + [] == [first];
    OneAnswerPerConversation(rules, t1, more);
    assert Converse(rules, t1, more).store.outbox[n] == t1.store.outbox[n];
  }

  /** And the first job can use up all LLM calls: one whose LLM only ever calls tools makes four,
    * and no later job of the conversation makes any. */
  lemma FirstJobUsesAllCalls(rules: Rules, t: Talk, first: Job, more: seq<Job>, sent: string)
    requires Untroubled(t.s) && t.s.step == 0 && first.envs(0).auth.NotAdmin?
    requires forall k: nat :: first.envs(k).reply.Says? && |first.envs(k).reply.calls| > 0
    requires forall k: nat :: !first.envs(k).dispatchFails
    requires Passed(rules, Some(rules.texts.gaveUp), t.s.history) == Some(sent) && sent != ""
    ensures Converse(rules, t, [first] + more).llmCalls == t.llmCalls + 4
  {
    var s := Resumed(t.s, first);
    RelentlessRun(rules, s, t.store, first.envs, sent);
    ConverseCons(rules, t, first, more);
    CallsPerConversation(rules, AfterJob(rules, t, first), more);
    CallsPerConversation(rules, t, [first] + more);
    CallsOnlyGrow(rules, AfterJob(rules, t, first), more);
  }

  lemma {:induction false} CallsOnlyGrow(rules: Rules, t: Talk, jobs: seq<Job>)
    ensures t.llmCalls <= Converse(rules, t, jobs).llmCalls
  {
    if |jobs| > 0 {
      CallsOnlyGrow(rules, t, jobs[..|jobs| - 1]);
    }
  }
}
