/** What every run of the conversational graph writes: which rows, with which content, and
  * what executing a node again adds. */
module AgentEffects {
  import opened Basics
  import opened Keys
  import opened DeliveryTables
  import opened AgentGraph
  import Markers

  // ------------------------------------------------------------------------------ replays

  /** The row or item that this write of this call would insert is there. */
  ghost predicate Holds(rules: Rules, s: GState, call: ToolCall, w: Write, store: Store) {
    match w
    case Nothing => true
    case ToOutbox => HasKey(store.outbox, rules.toolTenant, ToolKey(s.runId, call.callId))
    case ToQueue => HasItem(store.queue, ToolKey(s.runId, call.callId))
  }

  lemma InvokeHolds(rules: Rules, s: GState, call: ToolCall, e: ToolEnv, store: Store)
    ensures var store' := InvokeStore(rules, s, call, e, store);
            && Holds(rules, s, call, WriteOf(call.name, e), store')
            && (forall c: ToolCall, w :: Holds(rules, s, c, w, store) ==> Holds(rules, s, c, w, store'))
    ensures Holds(rules, s, call, WriteOf(call.name, e), store) ==> InvokeStore(rules, s, call, e, store) == store
  {
    var w := WriteOf(call.name, e);
    var store' := InvokeStore(rules, s, call, e, store);
    var row, item := ToolRow(rules, s, call, e), ToolItem(rules, s, call, e);
    if w.ToOutbox? && !HasKey(store.outbox, row.tenant, row.key) {
      assert store'.outbox == store.outbox + [row] && store'.outbox[|store.outbox|] == row;
    }
    if w.ToQueue? && !HasItem(store.queue, item.key) {
      assert store'.queue == store.queue + [item] && store'.queue[|store.queue|] == item;
    }
    assert forall i :: 0 <= i < |store.outbox| ==> store'.outbox[i] == store.outbox[i];
    assert forall i :: 0 <= i < |store.queue| ==> store'.queue[i] == store.queue[i];
  }

  lemma {:induction false} PrefixHolds(rules: Rules, s: GState, envs: nat -> ToolEnv, n: nat, store: Store)
    requires n <= |s.pending|
    ensures forall k :: 0 <= k < n ==>
              Holds(rules, s, s.pending[k], WriteOf(s.pending[k].name, envs(k)), StoreAfter(rules, s, envs, n, store))
  {
    if n > 0 {
      PrefixHolds(rules, s, envs, n - 1, store);
      InvokeHolds(rules, s, s.pending[n - 1], envs(n - 1), StoreAfter(rules, s, envs, n - 1, store));
    }
  }

  /** Which status a call ends in, which table it writes to and what: in terms of what the call
    * meets alone. */
  lemma InvokeExactly(rules: Rules, s: GState, call: ToolCall, e: ToolEnv, store: Store)
    ensures var runs := !e.malformed && e.registered && e.active && e.policy.Approves? && !e.raises;
            var followUp := call.name == "followup_reengage_conversation";
            var key := s.runId + ":" + call.callId;
            var st := InvokeResult(call, e).status;
            var out, queue := InvokeStore(rules, s, call, e, store).outbox, InvokeStore(rules, s, call, e, store).queue;
            && (runs && (followUp || !e.sideEffecting || (!e.policy.draft && !e.writeFails)) <==> st.Success?)
            && (runs && !followUp && e.sideEffecting && e.policy.draft <==> st.DraftCreated?)
            && (!e.malformed && e.registered && (!e.active || e.policy.Violates? || e.policy.Rejects?) <==>
                st.PolicyBlocked?)
            && (if runs && !followUp && e.sideEffecting && !e.policy.draft && !e.writeFails
                   && !HasKey(store.outbox, rules.toolTenant, key)
                then
                  && |out| == |store.outbox| + 1 && out[..|store.outbox|] == store.outbox
                  && var row := out[|store.outbox|];
                     && row.tenant == rules.toolTenant && row.key == key && row.content == call.args
                     && row.provider == "chatwoot" && row.status.Pending? && row.retry == 0 && row.scheduledAt == e.now
                else out == store.outbox)
            && (if runs && followUp && !e.optedOut && !e.writeFails && !HasItem(store.queue, key)
                then
                  && |queue| == |store.queue| + 1 && queue[..|store.queue|] == store.queue
                  && var item := queue[|store.queue|];
                     && item.key == key && item.tenant == rules.toolTenant && item.triggerAt == e.trigger
                     && item.status.ItemPending? && item.attempts == 0 && item.maxAttempts == e.maxAttempts
                     && !item.optedOut
                else queue == store.queue)
  {
  }

  /** What a result says about the tables: one that is not a success wrote nothing; a
    * success of a side-effecting tool has its row in the outbox unless it is a follow-up;
    * and a follow-up's success has its item in the queue exactly if the contact has not
    * opted out and the insert went through, or the item was there before. */
  lemma ResultTellsWrites(rules: Rules, s: GState, call: ToolCall, e: ToolEnv, store: Store)
    ensures var r := InvokeResult(call, e);
            var store' := InvokeStore(rules, s, call, e, store);
            && r.callId == call.callId && r.name == call.name
            && (!r.status.Success? ==> store' == store)
            && (r.status.Success? && call.name != FOLLOW_UP && e.sideEffecting ==>
                Holds(rules, s, call, ToOutbox, store') && store'.queue == store.queue)
            && (r.status.Success? && call.name != FOLLOW_UP && !e.sideEffecting ==> store' == store)
            && (r.status.Success? && call.name == FOLLOW_UP ==>
                  && store'.outbox == store.outbox
                  && (Holds(rules, s, call, ToQueue, store') <==>
                      (!e.optedOut && !e.writeFails) || Holds(rules, s, call, ToQueue, store)))
  {
    InvokeHolds(rules, s, call, e, store);
  }

  /** Among the first n calls, one under this id made this write in the first execution. */
  ghost predicate Covered(s: GState, first: nat -> ToolEnv, n: nat, id: string, w: Write)
    requires n <= |s.pending|
  {
    exists k :: 0 <= k < n && s.pending[k].callId == id && WriteOf(s.pending[k].name, first(k)) == w
  }

  /** On the first n calls the second execution attempts no write the first did not make. */
  ghost predicate NoNewWrites(s: GState, first: nat -> ToolEnv, again: nat -> ToolEnv, n: nat)
    requires n <= |s.pending|
  {
    forall k :: 0 <= k < n ==>
      var w := WriteOf(s.pending[k].name, again(k));
      w.Nothing? || Covered(s, first, n, s.pending[k].callId, w)
  }

  lemma CoveredHolds(rules: Rules, s: GState, first: nat -> ToolEnv, n: nat, call: ToolCall, w: Write, store: Store)
    requires n <= |s.pending| && (w.Nothing? || Covered(s, first, n, call.callId, w))
    ensures Holds(rules, s, call, w, StoreAfter(rules, s, first, n, store))
  {
    PrefixHolds(rules, s, first, n, store);
    if !w.Nothing? {
      var k :| 0 <= k < n && s.pending[k].callId == call.callId && WriteOf(s.pending[k].name, first(k)) == w;
      assert Holds(rules, s, s.pending[k], w, StoreAfter(rules, s, first, n, store));
    }
  }

  lemma {:induction false} ReplayedPrefix(rules: Rules, s: GState, first: nat -> ToolEnv, again: nat -> ToolEnv,
                                          j: nat, n: nat, store: Store)
    requires n <= j <= |s.pending| && NoNewWrites(s, first, again, j)
    ensures var done := StoreAfter(rules, s, first, j, store);
            StoreAfter(rules, s, again, n, done) == done
  {
    if n > 0 {
      var call, done := s.pending[n - 1], StoreAfter(rules, s, first, j, store);
      ReplayedPrefix(rules, s, first, again, j, n - 1, store);
      CoveredHolds(rules, s, first, j, call, WriteOf(call.name, again(n - 1)), store);
      InvokeHolds(rules, s, call, again(n - 1), done);
    }
  }

  function Spliced(j: nat, first: nat -> ToolEnv, again: nat -> ToolEnv): nat -> ToolEnv {
    (k: nat) => if k < j then first(k) else again(k)
  }

  lemma {:induction false} SplicedPrefix(rules: Rules, s: GState, first: nat -> ToolEnv, again: nat -> ToolEnv, j: nat,
                                         n: nat, store: Store)
    requires n <= j <= |s.pending|
    ensures StoreAfter(rules, s, Spliced(j, first, again), n, store) == StoreAfter(rules, s, first, n, store)
  {
    if n > 0 {
      SplicedPrefix(rules, s, first, again, j, n - 1, store);
    }
  }

  /** A tool executor that stops after j calls and is started again from the same state
    * leaves, call by call, what one uninterrupted execution leaves that met the first
    * execution's outcomes up to j and the second's from there. */
  lemma {:induction false} RestartedTools(rules: Rules, s: GState, first: nat -> ToolEnv, again: nat -> ToolEnv,
                                          j: nat, n: nat, store: Store)
    requires j <= n <= |s.pending| && NoNewWrites(s, first, again, j)
    ensures StoreAfter(rules, s, again, n, StoreAfter(rules, s, first, j, store))
         == StoreAfter(rules, s, Spliced(j, first, again), n, store)
  {
    if n == j {
      ReplayedPrefix(rules, s, first, again, j, j, store);
      SplicedPrefix(rules, s, first, again, j, j, store);
    } else {
      RestartedTools(rules, s, first, again, j, n - 1, store);
    }
  }

  /** The second execution of a node attempts no write the first did not make: tool by tool
    * for the executor, and no late success of a dispatch that failed. */
  ghost predicate WritesNoMore(n: Node, s: GState, first: Env, again: Env) {
    match n
    case Tools => NoNewWrites(s, first.tools, again.tools, |s.pending|)
    case Dispatch => Dispatches(s, again) ==> Dispatches(s, first)
    case _ => true
  }

  function Replays(rules: Rules, n: Node, s: GState, envs: seq<Env>, store: Store): Store {
    if |envs| == 0 then store
    else NodeStore(rules, n, s, envs[|envs| - 1], Replays(rules, n, s, envs[..|envs| - 1], store))
  }

  lemma DispatchTwice(s: GState, first: Env, again: Env, store: Store)
    requires Dispatches(s, again) ==> Dispatches(s, first)
    ensures DispatchStore(s, again, DispatchStore(s, first, store)) == DispatchStore(s, first, store)
  {
    var row := ResponseRow(s, first);
    var rows := DispatchStore(s, first, store).outbox;
    if Dispatches(s, first) && !HasKey(store.outbox, row.tenant, row.key) {
      assert rows[|store.outbox|] == row;
    }
  }

  /** Executing any node any number of times more from the same state, with whatever new
    * ids, clocks and failures, leaves both tables as after the first execution. */
  lemma {:induction false} ReplaySafety(rules: Rules, n: Node, s: GState, first: Env, again: seq<Env>, store: Store)
    requires forall k :: 0 <= k < |again| ==> WritesNoMore(n, s, first, again[k])
    ensures var done := NodeStore(rules, n, s, first, store);
            Replays(rules, n, s, again, done) == done
  {
    if |again| > 0 {
      var last := again[|again| - 1];
      ReplaySafety(rules, n, s, first, again[..|again| - 1], store);
      assert WritesNoMore(n, s, first, last);
      match n
      case Tools => ReplayedPrefix(rules, s, first.tools, last.tools, |s.pending|, |s.pending|, store);
      case Dispatch => DispatchTwice(s, first, last, store);
      case _ =>
    }
  }

  const EMPTY := Store([], [])

  /** Every row of the store was written by one of the first n calls. */
  ghost predicate OnlyCovered(s: GState, first: nat -> ToolEnv, n: nat, store: Store)
    requires n <= |s.pending|
  {
    && (forall i :: 0 <= i < |store.outbox| ==> CoveredKey(s, first, n, store.outbox[i].key, ToOutbox))
    && (forall i :: 0 <= i < |store.queue| ==> CoveredKey(s, first, n, store.queue[i].key, ToQueue))
  }

  ghost predicate CoveredKey(s: GState, first: nat -> ToolEnv, n: nat, key: string, w: Write)
    requires n <= |s.pending|
  {
    exists id: string :: key == ToolKey(s.runId, id) && Covered(s, first, n, id, w)
  }

  lemma {:induction false} StartedEmpty(rules: Rules, s: GState, first: nat -> ToolEnv, n: nat)
    requires n <= |s.pending|
    ensures OnlyCovered(s, first, n, StoreAfter(rules, s, first, n, EMPTY))
  {
    if n > 0 {
      StartedEmpty(rules, s, first, n - 1);
      var call := s.pending[n - 1];
      var before := StoreAfter(rules, s, first, n - 1, EMPTY);
      assert Covered(s, first, n, call.callId, WriteOf(call.name, first(n - 1)));
      assert CoveredKey(s, first, n, ToolKey(s.runId, call.callId), WriteOf(call.name, first(n - 1)));
      forall key, w | CoveredKey(s, first, n - 1, key, w)
        ensures CoveredKey(s, first, n, key, w)
      {
        var id: string :| key == ToolKey(s.runId, id) && Covered(s, first, n - 1, id, w);
        assert Covered(s, first, n, id, w);
      }
    }
  }

  lemma SameRunSameCall(run: string, c: string, d: string)
    requires ToolKey(run, c) == ToolKey(run, d)
    ensures c == d
  {
    assert c == ToolKey(run, c)[|run| + 1..] && d == ToolKey(run, d)[|run| + 1..];
  }

  lemma HeldIsCovered(rules: Rules, s: GState, first: nat -> ToolEnv, n: nat, call: ToolCall, w: Write)
    requires n <= |s.pending| && !w.Nothing? && Holds(rules, s, call, w, StoreAfter(rules, s, first, n, EMPTY))
    ensures Covered(s, first, n, call.callId, w)
  {
    var key := ToolKey(s.runId, call.callId);
    StartedEmpty(rules, s, first, n);
    assert CoveredKey(s, first, n, key, w);
    var id: string :| key == ToolKey(s.runId, id) && Covered(s, first, n, id, w);
    SameRunSameCall(s.runId, call.callId, id);
  }

  ghost predicate ReplayChangesNothing(rules: Rules, n: Node, s: GState, first: Env, again: Env) {
    forall store :: NodeStore(rules, n, s, again, NodeStore(rules, n, s, first, store))
      == NodeStore(rules, n, s, first, store)
  }

  lemma ToolsReplayNeeds(rules: Rules, s: GState, first: Env, again: Env)
    requires ReplayChangesNothing(rules, Tools, s, first, again)
    ensures WritesNoMore(Tools, s, first, again)
  {
    var n := |s.pending|;
    var done := NodeStore(rules, Tools, s, first, EMPTY);
    assert NodeStore(rules, Tools, s, again, done) == done;
    PrefixHolds(rules, s, again.tools, n, done);
    forall k | 0 <= k < n && !WriteOf(s.pending[k].name, again.tools(k)).Nothing?
      ensures Covered(s, first.tools, n, s.pending[k].callId, WriteOf(s.pending[k].name, again.tools(k)))
    {
      HeldIsCovered(rules, s, first.tools, n, s.pending[k], WriteOf(s.pending[k].name, again.tools(k)));
    }
  }

  lemma DispatchReplayNeeds(rules: Rules, s: GState, first: Env, again: Env)
    requires ReplayChangesNothing(rules, Dispatch, s, first, again)
    ensures WritesNoMore(Dispatch, s, first, again)
  {
    var done := NodeStore(rules, Dispatch, s, first, EMPTY);
    assert NodeStore(rules, Dispatch, s, again, done) == done;
  }

  /** One more execution is invisible in every store exactly if it attempts no write the
    * first one did not make: new ids and clocks never matter, only a write that failed at
    * first and succeeds later shows. */
  lemma ReplayExactly(rules: Rules, n: Node, s: GState, first: Env, again: Env)
    ensures ReplayChangesNothing(rules, n, s, first, again) <==> WritesNoMore(n, s, first, again)
  {
    if WritesNoMore(n, s, first, again) {
      forall store
        ensures NodeStore(rules, n, s, again, NodeStore(rules, n, s, first, store))
                == NodeStore(rules, n, s, first, store)
      {
        match n
        case Tools => ReplayedPrefix(rules, s, first.tools, again.tools, |s.pending|, |s.pending|, store);
        case Dispatch => DispatchTwice(s, first, again, store);
        case _ =>
      }
    } else if n.Tools? && ReplayChangesNothing(rules, n, s, first, again) {
      ToolsReplayNeeds(rules, s, first, again);
    } else if n.Dispatch? && ReplayChangesNothing(rules, n, s, first, again) {
      DispatchReplayNeeds(rules, s, first, again);
    }
  }

  // --------------------------------------------------------------------- what a run writes

  /** Some assistant message appended in the run called a tool under this id. */
  ghost predicate Called(ms: seq<Msg>, base: nat, id: string) {
    exists i :: base <= i < |ms| && ms[i].Assistant? && id in ms[i].ids
  }

  ghost predicate CalledKey(ms: seq<Msg>, base: nat, run: string, key: string) {
    exists id: string :: Called(ms, base, id) && key == ToolKey(run, id)
  }

  /** The text is the fixed refusal, or a stripped text that passed all three checks against
    * the responses remembered when the run began. */
  ghost predicate Approved(rules: Rules, history: seq<string>, text: string) {
    || text == rules.texts.blocked
    || (!rules.blocked(text) && !IsLooping(rules, text, history) && !rules.unsure(text)
        && exists raw :: text == rules.strip(raw))
  }

  predicate AfterDispatch(n: Node) {
    n.Memory? || Terminal(n)
  }

  ghost predicate RowExplained(rules: Rules, s0: GState, c: Conf, row: OutboxRow) {
    || (&& row.tenant == s0.tenant && row.key == ResponseKey(s0.runId)
        && AfterDispatch(c.node) && !c.s.hitl && Approved(rules, s0.history, row.content)
        && c.s.sent && !s0.sent && !s0.error && !s0.hitl)
    || (row.tenant == rules.toolTenant && CalledKey(c.s.messages, |s0.messages|, s0.runId, row.key))
  }

  ghost predicate ItemExplained(rules: Rules, s0: GState, c: Conf, item: Item) {
    item.tenant == rules.toolTenant && CalledKey(c.s.messages, |s0.messages|, s0.runId, item.key)
  }

  /** The tables have only gained rows, and every new one has its origin in the run. */
  ghost predicate Explained(rules: Rules, s0: GState, store0: Store, c: Conf) {
    && store0.outbox <= c.store.outbox && store0.queue <= c.store.queue
    && (forall j :: |store0.outbox| <= j < |c.store.outbox| ==> RowExplained(rules, s0, c, c.store.outbox[j]))
    && (forall j :: |store0.queue| <= j < |c.store.queue| ==> ItemExplained(rules, s0, c, c.store.queue[j]))
    && (UniqueKeys(store0.outbox) ==> UniqueKeys(c.store.outbox))
    && (UniqueItemKeys(store0.queue) ==> UniqueItemKeys(c.store.queue))
  }

  /** What holds of the state when a node is entered. */
  ghost predicate Entered(rules: Rules, s0: GState, c: Conf) {
    && SameRun(s0, c.s)
    && (!AfterDispatch(c.node) && !c.node.Dispatch? && !c.node.Hitl? ==> c.s.history == s0.history)
    && (c.node.Dispatch? ==> !c.s.hitl && !c.s.error)
    && (c.node.Dispatch? && Truthy(c.s.response) ==> Approved(rules, s0.history, c.s.response.value))
    && (c.node.Tools? ==> forall k :: 0 <= k < |c.s.pending| ==>
        Called(c.s.messages, |s0.messages|, c.s.pending[k].callId))
  }

  /** Messages only grow, the flags stay set, nothing after dispatch touches hitl, and only
    * guardrails touches the history. */
  predicate Keeps(n: Node, s: GState, s': GState) {
    && s'.tenant == s.tenant && s'.runId == s.runId && s.messages <= s'.messages
    && (!n.Guardrails? ==> s'.history == s.history)
    && (s.hitl ==> s'.hitl) && (s.sent ==> s'.sent) && (s.error ==> s'.error)
    && (AfterDispatch(n) ==> s'.hitl == s.hitl)
  }

  lemma AgentKeeps(rules: Rules, s: GState, e: Env)
    ensures Keeps(Agent, s, AgentNode(rules, s, e))
  {
  }

  lemma ToolsKeep(s: GState, e: Env)
    ensures Keeps(Tools, s, ToolsNode(s, e))
  {
  }

  lemma GuardrailsKeep(rules: Rules, s: GState)
    ensures Keeps(Guardrails, s, GuardrailsNode(rules, s))
  {
  }

  lemma DispatchKeeps(s: GState, e: Env)
    ensures Keeps(Dispatch, s, DispatchNode(s, e))
  {
  }

  lemma FirstAndLastKeep(n: Node, s: GState, e: Env)
    ensures Keeps(Eligibility, s, EligibilityNode(s, e)) && Keeps(CommandAssistant, s, CommandAssistantNode(s, e))
    ensures Keeps(Hitl, s, HitlNode(s)) && (!n.Guardrails? ==> Keeps(n, s, CountNode(s)))
  {
  }

  lemma UpdateKeeps(rules: Rules, n: Node, s: GState, e: Env)
    ensures Keeps(n, s, NodeUpdate(rules, n, s, e))
  {
    match n
    case Agent => AgentKeeps(rules, s, e);
    case Tools => ToolsKeep(s, e);
    case Guardrails => GuardrailsKeep(rules, s);
    case Dispatch => DispatchKeeps(s, e);
    case _ => FirstAndLastKeep(n, s, e);
  }

  lemma VisitKeeps(rules: Rules, c: Conf, e: Env)
    requires !Terminal(c.node)
    ensures var c' := Visit(rules, c, e);
            Keeps(c.node, c.s, c'.s) && (AfterDispatch(c.node) ==> AfterDispatch(c'.node))
  {
    UpdateKeeps(rules, c.node, c.s, e);
  }

  /** The part of Entered that every node keeps. */
  ghost predicate SameRun(s0: GState, s: GState) {
    && s.tenant == s0.tenant && s.runId == s0.runId && s0.messages <= s.messages
    && (s0.sent ==> s.sent) && (s0.error ==> s.error) && (s0.hitl ==> s.hitl)
  }

  lemma AgentCalls(rules: Rules, s: GState, e: Env, base: nat)
    requires base <= |s.messages|
    ensures var s' := AgentNode(rules, s, e);
            !s'.error ==> forall k :: 0 <= k < |s'.pending| ==> Called(s'.messages, base, s'.pending[k].callId)
  {
    var s' := AgentNode(rules, s, e);
    if s.step < 2 * MAX_TOOL_ITERATIONS && e.reply.Says? && |e.reply.calls| > 0 {
      var m := Assistant(Text(e.reply.text), CallIds(e.reply.calls));
      assert s'.messages == s.messages + [m] && s'.messages[|s.messages|] == m;
      forall k | 0 <= k < |s'.pending|
        ensures Called(s'.messages, base, s'.pending[k].callId)
      {
        assert m.ids[k] == s'.pending[k].callId;
      }
    }
  }

  lemma AgentEnters(rules: Rules, s0: GState, c: Conf, e: Env)
    requires c.node.Agent? && Entered(rules, s0, c)
    ensures Entered(rules, s0, Visit(rules, c, e))
  {
    VisitKeeps(rules, c, e);
    AgentCalls(rules, c.s, e, |s0.messages|);
  }

  lemma GuardrailsEnters(rules: Rules, s0: GState, c: Conf, e: Env)
    requires c.node.Guardrails? && Entered(rules, s0, c)
    ensures Entered(rules, s0, Visit(rules, c, e))
  {
    VisitKeeps(rules, c, e);
    var v := Judge(rules, c.s.response, c.s.history);
    assert Truthy(v.response) && !v.hitl ==> Approved(rules, s0.history, v.response.value);
  }

  lemma OtherEnters(rules: Rules, s0: GState, c: Conf, e: Env)
    requires !c.node.Agent? && !c.node.Guardrails? && !Terminal(c.node) && Entered(rules, s0, c)
    ensures Entered(rules, s0, Visit(rules, c, e))
  {
    VisitKeeps(rules, c, e);
    RouteElsewhere(c.node, NodeUpdate(rules, c.node, c.s, e));
  }

  lemma RouteElsewhere(n: Node, s: GState)
    requires !n.Agent? && !n.Guardrails? && !Terminal(n)
    ensures var m := Route(n, s);
            !m.Tools? && !m.Dispatch?
              && (m.Hitl? || AfterDispatch(m) || (!AfterDispatch(n) && !n.Hitl? && !n.Dispatch?))
  {
  }

  ghost predicate PendingKey(s: GState, key: string) {
    exists k :: 0 <= k < |s.pending| && key == ToolKey(s.runId, s.pending[k].callId)
  }

  /** The tool executor adds rows of the pending calls only, and never a key twice. */
  ghost predicate GrownRows(rules: Rules, s: GState, rows: Outbox, rows': Outbox) {
    && rows <= rows'
    && (forall j :: |rows| <= j < |rows'| ==> rows'[j].tenant == rules.toolTenant && PendingKey(s, rows'[j].key))
    && (UniqueKeys(rows) ==> UniqueKeys(rows'))
  }

  ghost predicate GrownItems(rules: Rules, s: GState, items: Queue, items': Queue) {
    && items <= items'
    && (forall j :: |items| <= j < |items'| ==> items'[j].tenant == rules.toolTenant && PendingKey(s, items'[j].key))
    && (UniqueItemKeys(items) ==> UniqueItemKeys(items'))
  }

  lemma InvokeGrows(rules: Rules, s: GState, k: nat, e: ToolEnv, store: Store)
    requires k < |s.pending|
    ensures var store' := InvokeStore(rules, s, s.pending[k], e, store);
            GrownRows(rules, s, store.outbox, store'.outbox) && GrownItems(rules, s, store.queue, store'.queue)
  {
    assert PendingKey(s, ToolKey(s.runId, s.pending[k].callId));
  }

  lemma RowsGrowTwice(rules: Rules, s: GState, rows: Outbox, mid: Outbox, rows': Outbox)
    requires GrownRows(rules, s, rows, mid) && GrownRows(rules, s, mid, rows')
    ensures GrownRows(rules, s, rows, rows')
  {
  }

  lemma ItemsGrowTwice(rules: Rules, s: GState, items: Queue, mid: Queue, items': Queue)
    requires GrownItems(rules, s, items, mid) && GrownItems(rules, s, mid, items')
    ensures GrownItems(rules, s, items, items')
  {
  }

  lemma {:induction false} ToolsGrowRows(rules: Rules, s: GState, envs: nat -> ToolEnv, n: nat, store: Store)
    requires n <= |s.pending|
    ensures GrownRows(rules, s, store.outbox, StoreAfter(rules, s, envs, n, store).outbox)
  {
    if n > 0 {
      var mid := StoreAfter(rules, s, envs, n - 1, store);
      ToolsGrowRows(rules, s, envs, n - 1, store);
      InvokeGrows(rules, s, n - 1, envs(n - 1), mid);
      RowsGrowTwice(rules, s, store.outbox, mid.outbox, StoreAfter(rules, s, envs, n, store).outbox);
    }
  }

  lemma {:induction false} ToolsGrowItems(rules: Rules, s: GState, envs: nat -> ToolEnv, n: nat, store: Store)
    requires n <= |s.pending|
    ensures GrownItems(rules, s, store.queue, StoreAfter(rules, s, envs, n, store).queue)
  {
    if n > 0 {
      var mid := StoreAfter(rules, s, envs, n - 1, store);
      ToolsGrowItems(rules, s, envs, n - 1, store);
      InvokeGrows(rules, s, n - 1, envs(n - 1), mid);
      ItemsGrowTwice(rules, s, store.queue, mid.queue, StoreAfter(rules, s, envs, n, store).queue);
    }
  }

  lemma RowCarries(rules: Rules, s0: GState, c: Conf, c': Conf, row: OutboxRow)
    requires RowExplained(rules, s0, c, row) && c.s.messages <= c'.s.messages
    requires AfterDispatch(c.node) ==> AfterDispatch(c'.node) && c'.s.hitl == c.s.hitl
    requires c.s.sent ==> c'.s.sent
    ensures RowExplained(rules, s0, c', row)
  {
    KeyCarries(c.s.messages, c'.s.messages, |s0.messages|, s0.runId, row.key);
  }

  lemma KeyCarries(ms: seq<Msg>, ms': seq<Msg>, base: nat, run: string, key: string)
    requires ms <= ms'
    ensures CalledKey(ms, base, run, key) ==> CalledKey(ms', base, run, key)
  {
    if CalledKey(ms, base, run, key) {
      var id: string :| Called(ms, base, id) && key == ToolKey(run, id);
      var i :| base <= i < |ms| && ms[i].Assistant? && id in ms[i].ids;
      assert ms'[i] == ms[i];
      assert Called(ms', base, id);
    }
  }

  lemma OldRowsCarry(rules: Rules, s0: GState, store0: Store, c: Conf, e: Env)
    requires !Terminal(c.node) && Explained(rules, s0, store0, c)
    ensures var c' := Visit(rules, c, e);
            && (forall j :: |store0.outbox| <= j < |c.store.outbox| ==> RowExplained(rules, s0, c', c.store.outbox[j]))
            && (forall j :: |store0.queue| <= j < |c.store.queue| ==> ItemExplained(rules, s0, c', c.store.queue[j]))
  {
    var c' := Visit(rules, c, e);
    VisitKeeps(rules, c, e);
    forall j | |store0.outbox| <= j < |c.store.outbox|
      ensures RowExplained(rules, s0, c', c.store.outbox[j])
    {
      RowCarries(rules, s0, c, c', c.store.outbox[j]);
    }
    forall j | |store0.queue| <= j < |c.store.queue|
      ensures ItemExplained(rules, s0, c', c.store.queue[j])
    {
      KeyCarries(c.s.messages, c'.s.messages, |s0.messages|, s0.runId, c.store.queue[j].key);
    }
  }

  lemma PendingIsCalled(rules: Rules, s0: GState, c: Conf, e: Env, key: string)
    requires c.node.Tools? && Entered(rules, s0, c) && PendingKey(c.s, key)
    ensures CalledKey(Visit(rules, c, e).s.messages, |s0.messages|, s0.runId, key)
  {
    var k :| 0 <= k < |c.s.pending| && key == ToolKey(c.s.runId, c.s.pending[k].callId);
    assert Called(c.s.messages, |s0.messages|, c.s.pending[k].callId);
    assert CalledKey(c.s.messages, |s0.messages|, s0.runId, key);
    VisitKeeps(rules, c, e);
    KeyCarries(c.s.messages, Visit(rules, c, e).s.messages, |s0.messages|, s0.runId, key);
  }

  lemma NewRowsExplained(rules: Rules, s0: GState, c: Conf, e: Env)
    requires c.node.Tools? && Entered(rules, s0, c)
    ensures var c' := Visit(rules, c, e);
            && GrownRows(rules, c.s, c.store.outbox, c'.store.outbox)
            && forall j :: |c.store.outbox| <= j < |c'.store.outbox| ==> RowExplained(rules, s0, c', c'.store.outbox[j])
  {
    var c' := Visit(rules, c, e);
    ToolsGrowRows(rules, c.s, e.tools, |c.s.pending|, c.store);
    forall j | |c.store.outbox| <= j < |c'.store.outbox|
      ensures RowExplained(rules, s0, c', c'.store.outbox[j])
    {
      PendingIsCalled(rules, s0, c, e, c'.store.outbox[j].key);
    }
  }

  lemma NewItemsExplained(rules: Rules, s0: GState, c: Conf, e: Env)
    requires c.node.Tools? && Entered(rules, s0, c)
    ensures var c' := Visit(rules, c, e);
            && GrownItems(rules, c.s, c.store.queue, c'.store.queue)
            && forall j :: |c.store.queue| <= j < |c'.store.queue| ==> ItemExplained(rules, s0, c', c'.store.queue[j])
  {
    var c' := Visit(rules, c, e);
    ToolsGrowItems(rules, c.s, e.tools, |c.s.pending|, c.store);
    forall j | |c.store.queue| <= j < |c'.store.queue|
      ensures ItemExplained(rules, s0, c', c'.store.queue[j])
    {
      PendingIsCalled(rules, s0, c, e, c'.store.queue[j].key);
    }
  }

  lemma ToolsExplained(rules: Rules, s0: GState, store0: Store, c: Conf, e: Env)
    requires c.node.Tools? && Entered(rules, s0, c) && Explained(rules, s0, store0, c)
    ensures Explained(rules, s0, store0, Visit(rules, c, e))
  {
    OldRowsCarry(rules, s0, store0, c, e);
    NewRowsExplained(rules, s0, c, e);
    NewItemsExplained(rules, s0, c, e);
  }

  lemma DispatchExplained(rules: Rules, s0: GState, store0: Store, c: Conf, e: Env)
    requires c.node.Dispatch? && Entered(rules, s0, c) && Explained(rules, s0, store0, c)
    ensures Explained(rules, s0, store0, Visit(rules, c, e))
  {
    var c' := Visit(rules, c, e);
    OldRowsCarry(rules, s0, store0, c, e);
    var row := ResponseRow(c.s, e);
    if Dispatches(c.s, e) {
      assert AfterDispatch(c'.node) && c'.s.hitl == c.s.hitl && c'.s.sent;
      assert RowExplained(rules, s0, c', row);
    }
  }

  lemma OtherExplained(rules: Rules, s0: GState, store0: Store, c: Conf, e: Env)
    requires !c.node.Dispatch? && !c.node.Tools? && !Terminal(c.node) && Explained(rules, s0, store0, c)
    ensures Explained(rules, s0, store0, Visit(rules, c, e))
  {
    OldRowsCarry(rules, s0, store0, c, e);
    assert Visit(rules, c, e).store == c.store;
  }

  lemma VisitExplained(rules: Rules, s: GState, store: Store, c: Conf, e: Env)
    requires !Terminal(c.node) && Entered(rules, s, c) && Explained(rules, s, store, c)
    ensures Entered(rules, s, Visit(rules, c, e)) && Explained(rules, s, store, Visit(rules, c, e))
  {
    match c.node {
      case Agent => AgentEnters(rules, s, c, e);
      case Guardrails => GuardrailsEnters(rules, s, c, e);
      case _ => OtherEnters(rules, s, c, e);
    }
    match c.node {
      case Tools => ToolsExplained(rules, s, store, c, e);
      case Dispatch => DispatchExplained(rules, s, store, c, e);
      case _ => OtherExplained(rules, s, store, c, e);
    }
  }

  lemma {:induction false} RunExplained(rules: Rules, s: GState, store: Store, envs: nat -> Env, i: nat)
    requires i < |Run(rules, s, store, envs)|
    ensures var c := Run(rules, s, store, envs)[i];
            Entered(rules, s, c) && Explained(rules, s, store, c)
  {
    RunStep(rules, s, store, envs, i);
    if i > 0 {
      RunExplained(rules, s, store, envs, i - 1);
      VisitExplained(rules, s, store, Run(rules, s, store, envs)[i - 1], envs(i - 1));
    }
  }

  /** Run ids are uuids. */
  predicate RunIdOk(run: string) {
    ':' !in run && run != "response"
  }

  ghost predicate NoMarker(low: Markers.Casing, text: string) {
    !Markers.ShowsAny(low, text)
  }

  /** At every point of every run, each response row the run has added holds the fixed
    * refusal, or a text without any internal marker in any casing that is off the
    * blocklist, repeats none of the last responses and hedges nowhere; and there is no such
    * row in a run that has asked for a human, nor in one that was handed a state in which
    * a response was sent, an error occurred or a human was called. */
  lemma GuardedOutput(rules: Rules, low: Markers.Casing, ws: char -> bool, s: GState, store: Store, envs: nat -> Env,
                      i: nat, j: nat)
    requires Wired(rules, low, ws) && RunIdOk(s.runId) && i < |Run(rules, s, store, envs)|
    requires var c := Run(rules, s, store, envs)[i];
             |store.outbox| <= j < |c.store.outbox| && c.store.outbox[j].key == ResponseKey(s.runId)
    ensures var c := Run(rules, s, store, envs)[i];
            var text := c.store.outbox[j].content;
            && !c.s.hitl && c.s.sent && !s.hitl && !s.sent && !s.error
            && c.store.outbox[j].tenant == s.tenant
            && (text != rules.texts.blocked ==>
                  NoMarker(low, text) && !rules.blocked(text) && !rules.unsure(text)
                    && !Repeats(rules, text, s.history))
  {
    RunExplained(rules, s, store, envs, i);
    var c := Run(rules, s, store, envs)[i];
    var row := c.store.outbox[j];
    assert RowExplained(rules, s, c, row);
    if CalledKey(c.s.messages, |s.messages|, s.runId, row.key) {
      var id: string :| Called(c.s.messages, |s.messages|, id) && row.key == ToolKey(s.runId, id);
      ToolKeyIsNoResponseKey(s.runId, id, s.runId);
      assert false;
    }
    LoopingIsRepeating(rules, row.content, s.history);
    if row.content != rules.texts.blocked {
      var raw :| row.content == rules.strip(raw);
      var _, _, _, _ := Markers.StrippingIsSound(low, ws, raw);
    }
  }

  lemma {:induction false} HumanStaysCalled(rules: Rules, s: GState, store: Store, envs: nat -> Env, i: nat, k: nat)
    requires i <= k < |Run(rules, s, store, envs)| && Run(rules, s, store, envs)[i].s.hitl
    ensures Run(rules, s, store, envs)[k].s.hitl
    decreases k
  {
    if i < k {
      RunStep(rules, s, store, envs, k);
      HumanStaysCalled(rules, s, store, envs, i, k - 1);
      VisitKeeps(rules, Run(rules, s, store, envs)[k - 1], envs(k - 1));
    }
  }

  /** A run that asks for a human at any point, guardrails included, adds no response. */
  lemma HumanMeansSilence(rules: Rules, low: Markers.Casing, ws: char -> bool, s: GState, store: Store,
                          envs: nat -> Env, i: nat)
    requires Wired(rules, low, ws) && RunIdOk(s.runId)
    requires i < |Run(rules, s, store, envs)| && Run(rules, s, store, envs)[i].s.hitl
    ensures var out := Final(Run(rules, s, store, envs)).store.outbox;
            forall j :: |store.outbox| <= j < |out| ==> out[j].key != ResponseKey(s.runId)
  {
    var last := |Run(rules, s, store, envs)| - 1;
    var out := Final(Run(rules, s, store, envs)).store.outbox;
    HumanStaysCalled(rules, s, store, envs, i, last);
    forall j | |store.outbox| <= j < |out|
      ensures out[j].key != ResponseKey(s.runId)
    {
      if out[j].key == ResponseKey(s.runId) {
        GuardedOutput(rules, low, ws, s, store, envs, last, j);
        assert false;
      }
    }
  }

  /** The text repeats one of the last three responses. */
  ghost predicate Repeats(rules: Rules, text: string, history: seq<string>) {
    exists k :: |history| - 3 <= k && 0 <= k < |history| && rules.similar(text, history[k])
  }

  ghost function LastThree(history: seq<string>): seq<string> {
    if |history| <= 3 then history else history[|history| - 3..]
  }

  lemma LoopingIsRepeating(rules: Rules, text: string, history: seq<string>)
    ensures IsLooping(rules, text, history) <==> Repeats(rules, text, history)
    ensures Recent(history) == LastThree(history)
  {
    var recent := Recent(history);
    var skipped := |history| - |recent|;
    assert forall k :: 0 <= k < |recent| ==> recent[k] == history[skipped + k];
    assert forall k :: skipped <= k < |history| ==> history[k] == recent[k - skipped];
  }

  /** What guardrails makes of a response, t being its stripped text: nothing of an empty one;
    * the refusal if t is blocked, and nothing is remembered; the escalation, and a call for a
    * human, if t repeats one of the last three responses or hedges; and t itself otherwise. */
  lemma GuardrailsExactly(rules: Rules, s: GState)
    ensures var s' := GuardrailsNode(rules, s);
            if s.response.None? || s.response == Some("") then
              s'.response == s.response && s'.hitl == s.hitl && s'.history == s.history
            else
              var t := rules.strip(s.response.value);
              if rules.blocked(t) then
                s'.response == Some(rules.texts.blocked) && s'.hitl == s.hitl && s'.history == s.history
              else if Repeats(rules, t, s.history) || rules.unsure(t) then
                s'.response == Some(rules.texts.escalation) && s'.hitl && s'.history == LastThree(s.history + [t])
              else s'.response == Some(t) && s'.hitl == s.hitl && s'.history == LastThree(s.history + [t])
  {
    if Truthy(s.response) {
      var t := rules.strip(s.response.value);
      LoopingIsRepeating(rules, t, s.history);
      LoopingIsRepeating(rules, t, s.history + [t]);
    }
  }

  /** The text that guardrails lets through to dispatch, if any. */
  ghost function Passed(rules: Rules, response: Option<string>, history: seq<string>): Option<string> {
    if response.None? || response == Some("") then None
    else
      var t := rules.strip(response.value);
      if rules.blocked(t) then Some(rules.texts.blocked)
      else if Repeats(rules, t, history) || rules.unsure(t) then None
      else Some(t)
  }

  /** From guardrails on, the response is enqueued exactly if guardrails lets a non-empty text
    * through, nobody had called for a human, nothing was sent before, the insert goes through
    * and the key is new: one pending row with that text.  Otherwise the outbox stays as it is. */
  lemma ResponseExactly(rules: Rules, c: Conf, e: Env, f: Env)
    requires c.node.Guardrails? && !c.s.error
    ensures var c' := Visit(rules, c, e);
            var out := (if c'.node.Dispatch? then Visit(rules, c', f) else c').store.outbox;
            var text := Passed(rules, c.s.response, c.s.history);
            var key := "response:" + c.s.runId;
            if text.Some? && text != Some("") && !c.s.hitl && !c.s.sent && !f.dispatchFails
               && !HasKey(c.store.outbox, c.s.tenant, key)
            then
              && |out| == |c.store.outbox| + 1 && out[..|c.store.outbox|] == c.store.outbox
              && var row := out[|c.store.outbox|];
                 && row.key == key && row.content == text.value && row.tenant == c.s.tenant
                 && row.provider == "chatwoot"
                 && row.status.Pending? && row.retry == 0 && row.scheduledAt == f.now
            else out == c.store.outbox
  {
    GuardrailsExactly(rules, c.s);
    GuardrailsFrame(rules, c, e);
  }

  lemma GuardrailsFrame(rules: Rules, c: Conf, e: Env)
    requires c.node.Guardrails?
    ensures var c' := Visit(rules, c, e);
            && c'.store == c.store && c'.s == GuardrailsNode(rules, c.s) && c'.s.error == c.s.error
            && c'.s.sent == c.s.sent && c'.s.tenant == c.s.tenant && c'.s.runId == c.s.runId
  {
  }

  /** A run adds to the outbox at most one response row and at most one row for each tool
    * call id the LLM used in it, to the follow-up queue at most one item for each such id,
    * and nothing else; rows that were there stay as they were. */
  lemma WritesPerRun(rules: Rules, s: GState, store: Store, envs: nat -> Env)
    requires UniqueKeys(store.outbox) && UniqueItemKeys(store.queue) && RunIdOk(s.runId)
    ensures var c := Final(Run(rules, s, store, envs));
            var base := |s.messages|;
            && store.outbox <= c.store.outbox && store.queue <= c.store.queue
            && (forall j :: |store.outbox| <= j < |c.store.outbox| ==>
                  c.store.outbox[j].key == ResponseKey(s.runId)
                    || CalledKey(c.s.messages, base, s.runId, c.store.outbox[j].key))
            && (forall j :: |store.queue| <= j < |c.store.queue| ==>
                CalledKey(c.s.messages, base, s.runId, c.store.queue[j].key))
            && (forall j, k :: |store.outbox| <= j < k < |c.store.outbox| ==>
                c.store.outbox[j].key != c.store.outbox[k].key)
            && UniqueKeys(c.store.outbox) && UniqueItemKeys(c.store.queue)
  {
    var tr := Run(rules, s, store, envs);
    RunExplained(rules, s, store, envs, |tr| - 1);
    var c := Final(tr);
    forall j, k | |store.outbox| <= j < k < |c.store.outbox|
      ensures c.store.outbox[j].key != c.store.outbox[k].key
    {
      SeparateKeys(rules, s, c, c.store.outbox[j], c.store.outbox[k]);
    }
  }

  /** Two new rows of one key belong to one tenant, so the unique constraint sees them. */
  lemma SeparateKeys(rules: Rules, s: GState, c: Conf, a: OutboxRow, b: OutboxRow)
    requires RunIdOk(s.runId) && RowExplained(rules, s, c, a) && RowExplained(rules, s, c, b)
    ensures a.key == b.key ==> a.tenant == b.tenant
  {
    forall id: string
      ensures ToolKey(s.runId, id) != ResponseKey(s.runId)
    {
      ToolKeyIsNoResponseKey(s.runId, id, s.runId);
    }
  }
}
