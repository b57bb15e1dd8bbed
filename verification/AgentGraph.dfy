/** The conversational graph: node functions, routing and runs.
  *
  * The LLM, the tool gateway's registry, policy and handlers, and the database are an
  * environment that may answer anything at every visit.  A node's update is merged into
  * the state; messages are appended.  Production wiring: llm, gateway and outbox present.
  */
module AgentGraph {
  import opened Basics
  import opened Keys
  import opened DeliveryTables
  import Markers

  // ------------------------------------------------------------------------------ state

  /** A call without an id has the empty one. */
  datatype ToolCall = ToolCall(callId: string, name: string, args: string)

  datatype Msg =
    | User(text: string)
    | Assistant(text: string, ids: seq<string>)
    | ToolReply(callId: string, text: string)

  datatype GState = GState(tenant: string, runId: string, step: nat, accepted: bool, admin: bool, error: bool,
                           hitl: bool, sent: bool,
                           response: Option<string>, pending: seq<ToolCall>, messages: seq<Msg>, history: seq<string>)

  /** The two tables a run may write to. */
  datatype Store = Store(outbox: Outbox, queue: Queue)

  /** The fixed answers of the nodes. */
  datatype Texts = Texts(blocked: string, gaveUp: string, escalation: string)

  /** strip: _strip_internal_markers (see Wired); blocked: the blocklist; similar: the
    * difflib ratio reaches the threshold; unsure: a hedging pattern matches; toolTenant: the
    * tenant the tool executor was built with. */
  datatype Rules = Rules(strip: string -> string, blocked: string -> bool, similar: (string, string) -> bool,
                         unsure: string -> bool,
                         texts: Texts, toolTenant: string)

  /** strip is the function of the Markers module. */
  ghost predicate Wired(rules: Rules, low: Markers.Casing, space: char -> bool) {
    Markers.Folds(low) && forall t :: rules.strip(t) == Markers.StripMarkers(low, space, t)
  }

  const MAX_TOOL_ITERATIONS := 5
  const LOOP_WINDOW := 3

  predicate Truthy(r: Option<string>) {
    r.Some? && r.value != ""
  }

  function Text(r: Option<string>): string {
    if r.Some? then r.value else ""
  }

  function CallIds(calls: seq<ToolCall>): (ids: seq<string>)
    ensures |ids| == |calls| && forall i :: 0 <= i < |calls| ==> ids[i] == calls[i].callId
  {
    seq(|calls|, i requires 0 <= i < |calls| => calls[i].callId)
  }

  // ------------------------------------------------------------------------ environment

  datatype Reply = Raises | Says(text: Option<string>, calls: seq<ToolCall>)

  datatype Policy = Violates | Rejects | PolicyRaises | Approves(draft: bool)

  /** What one call meets: malformed if no request can be built from it; raises covers every
    * other exception of the execution, writeFails a failing insert; uuid, now and trigger
    * are the values drawn. */
  datatype ToolEnv = ToolEnv(malformed: bool, registered: bool, active: bool, policy: Policy, sideEffecting: bool,
                             raises: bool, writeFails: bool,
                             optedOut: bool, maxAttempts: int, uuid: nat, now: int, trigger: int)

  /** Denied also stands for a job that arrives with a rejected status. */
  datatype Auth = NotAdmin | Denied | Allowed

  datatype Env = Env(auth: Auth, reply: Reply, tools: nat -> ToolEnv, dispatchFails: bool, uuid: nat, now: int,
                     adminText: string)

  // ------------------------------------------------------------------------ tool gateway

  datatype ResultStatus = Success | DraftCreated | PolicyBlocked | ToolFailed

  datatype ToolResult = ToolResult(callId: string, name: string, status: ResultStatus)

  const FOLLOW_UP := "followup_reengage_conversation"

  /** What a call writes, if anything. */
  datatype Write = Nothing | ToOutbox | ToQueue

  predicate Runs(e: ToolEnv) {
    !e.malformed && e.registered && e.active && e.policy.Approves?
  }

  function WriteOf(name: string, e: ToolEnv): Write {
    if !Runs(e) || e.raises || e.writeFails then Nothing
    else if name == FOLLOW_UP then if e.optedOut then Nothing else ToQueue
    else if e.sideEffecting && !e.policy.draft then ToOutbox
    else Nothing
  }

  // The returns of the executor and of the gateway; None stands for an exception.

  function ExecuteFollowUp(call: ToolCall, e: ToolEnv): Option<ToolResult> {
    if e.raises then None
    else if e.optedOut then Some(ToolResult(call.callId, call.name, Success))
    else Some(ToolResult(call.callId, call.name, Success))  // a failing insert is only logged
  }

  function ExecuteRead(call: ToolCall, e: ToolEnv): Option<ToolResult> {
    if e.raises then None else Some(ToolResult(call.callId, call.name, Success))
  }

  function ExecuteDraft(call: ToolCall, e: ToolEnv): Option<ToolResult> {
    if e.raises then None else Some(ToolResult(call.callId, call.name, DraftCreated))
  }

  function ExecuteWithOutbox(call: ToolCall, e: ToolEnv): Option<ToolResult> {
    if e.raises || e.writeFails then None else Some(ToolResult(call.callId, call.name, Success))
  }

  function Execute(call: ToolCall, e: ToolEnv): Option<ToolResult>
    requires e.policy.Approves?
  {
    if call.name == FOLLOW_UP then ExecuteFollowUp(call, e)
    else if !e.sideEffecting then ExecuteRead(call, e)
    else if e.policy.draft then ExecuteDraft(call, e)
    else ExecuteWithOutbox(call, e)
  }

  function GatewayInvoke(call: ToolCall, e: ToolEnv): Option<ToolResult> {
    if !e.registered then Some(ToolResult(call.callId, call.name, ToolFailed))
    else if !e.active then Some(ToolResult(call.callId, call.name, PolicyBlocked))
    else
      match e.policy
      case Violates => Some(ToolResult(call.callId, call.name, PolicyBlocked))
      case PolicyRaises => None
      case Rejects => Some(ToolResult(call.callId, call.name, PolicyBlocked))
      case Approves(_) => Execute(call, e)
  }

  function ToolRow(rules: Rules, s: GState, call: ToolCall, e: ToolEnv): OutboxRow {
    NewCommand(rules.toolTenant, ToolKey(s.runId, call.callId), Uuid(e.uuid), "chatwoot", call.args, FromGraph, e.now)
  }

  function ToolItem(rules: Rules, s: GState, call: ToolCall, e: ToolEnv): Item {
    Item(ToolKey(s.runId, call.callId), rules.toolTenant, call.args, e.trigger, ItemPending, 0, e.maxAttempts, false)
  }

  function InvokeStore(rules: Rules, s: GState, call: ToolCall, e: ToolEnv, store: Store): Store {
    match WriteOf(call.name, e)
    case Nothing => store
    case ToOutbox => store.(outbox := Enqueue(store.outbox, ToolRow(rules, s, call, e)))
    case ToQueue => store.(queue := EnqueueItem(store.queue, ToolItem(rules, s, call, e)))
  }

  /** gateway.invoke inside the tool executor's try. */
  function InvokeResult(call: ToolCall, e: ToolEnv): ToolResult {
    var failed := ToolResult(call.callId, call.name, ToolFailed);
    if e.malformed then failed
    else
      match GatewayInvoke(call, e)
      case Some(r) => ToolResult(r.callId, r.name, r.status)
      case None => failed
  }

  /** On every return path, and on every exception, the result is for this very call. */
  lemma InvokeKeepsCall(call: ToolCall, e: ToolEnv)
    ensures InvokeResult(call, e).callId == call.callId && InvokeResult(call, e).name == call.name
  {
  }

  /** The results of the calls from k on. */
  function ToolResults(calls: seq<ToolCall>, envs: nat -> ToolEnv, k: nat): seq<ToolResult>
    requires k <= |calls|
    decreases |calls| - k
  {
    if k == |calls| then [] else [InvokeResult(calls[k], envs(k))] + ToolResults(calls, envs, k + 1)
  }

  /** The store after the first n calls. */
  function StoreAfter(rules: Rules, s: GState, envs: nat -> ToolEnv, n: nat, store: Store): Store
    requires n <= |s.pending|
  {
    if n == 0 then store
    else InvokeStore(rules, s, s.pending[n - 1], envs(n - 1), StoreAfter(rules, s, envs, n - 1, store))
  }

  /** One tool message per result that has a call id. */
  function ToolReplies(results: seq<ToolResult>): seq<Msg> {
    if |results| == 0 then []
    else (if results[0].callId == "" then [] else [ToolReply(results[0].callId, "")]) + ToolReplies(results[1..])
  }

  method ToolExecutorLoop(rules: Rules, s: GState, envs: nat -> ToolEnv, store: Store)
    returns (results: seq<ToolResult>, store': Store)
    ensures results == ToolResults(s.pending, envs, 0)
    ensures store' == StoreAfter(rules, s, envs, |s.pending|, store)
  {
    results, store' := [], store;
    for k := 0 to |s.pending|
      invariant results + ToolResults(s.pending, envs, k) == ToolResults(s.pending, envs, 0)
      invariant store' == StoreAfter(rules, s, envs, k, store)
    {
      var call := s.pending[k];
      ghost var rest := ToolResults(s.pending, envs, k + 1);
      assert results + ([InvokeResult(call, envs(k))] + rest) == results + [InvokeResult(call, envs(k))] + rest;
      results := results + [InvokeResult(call, envs(k))];
      store' := InvokeStore(rules, s, call, envs(k), store');
    }
    assert results + [] == results;
  }

  // ------------------------------------------------------------------------------- nodes

  function EligibilityNode(s: GState, e: Env): GState {
    s.(accepted := !e.auth.Denied?, admin := e.auth.Allowed?, step := s.step + 1)
  }

  function CommandAssistantNode(s: GState, e: Env): GState {
    s.(response := Some(e.adminText), sent := true, step := s.step + 1)
  }

  /** media_understanding, context_builder and memory_writer change nothing modelled here. */
  function CountNode(s: GState): GState {
    s.(step := s.step + 1)
  }

  /** The assistant message for the transcript, if there is one. */
  function Answer(text: Option<string>, calls: seq<ToolCall>): seq<Msg> {
    if |calls| > 0 then [Assistant(Text(text), CallIds(calls))]
    else if Truthy(text) then [Assistant(Text(text), [])]
    else []
  }

  function AgentNode(rules: Rules, s: GState, e: Env): GState {
    if s.step >= MAX_TOOL_ITERATIONS * 2 then
      s.(response := Some(rules.texts.gaveUp), pending := [], step := s.step + 1)
    else
      match e.reply
      case Raises => s.(error := true, step := s.step + 1)
      case Says(text, calls) =>
        s.(response := text, pending := calls, step := s.step + 1,
           messages := s.messages + Answer(text, calls))
  }

  function ToolsNode(s: GState, e: Env): GState {
    if |s.pending| == 0 then s.(step := s.step + 1)
    else s.(pending := [], step := s.step + 1, messages := s.messages + ToolReplies(ToolResults(s.pending, e.tools, 0)))
  }

  function Recent(history: seq<string>): seq<string> {
    if |history| <= LOOP_WINDOW then history else history[|history| - LOOP_WINDOW..]
  }

  predicate IsLooping(rules: Rules, text: string, history: seq<string>) {
    exists k :: 0 <= k < |Recent(history)| && rules.similar(text, Recent(history)[k])
  }

  /** _is_looping as it loops: true if any of the last three responses is similar. */
  method LoopCheck(rules: Rules, text: string, history: seq<string>) returns (looping: bool)
    ensures looping <==>
              exists k :: 0 <= k < |history| && |history| - LOOP_WINDOW <= k && rules.similar(text, history[k])
    ensures looping == IsLooping(rules, text, history)
  {
    var recent := Recent(history);
    ghost var skipped := |history| - |recent|;
    assert forall k :: 0 <= k < |recent| ==> recent[k] == history[skipped + k];
    looping := false;
    for i := 0 to |recent|
      invariant !looping && forall k :: 0 <= k < i ==> !rules.similar(text, recent[k])
    {
      if rules.similar(text, recent[i]) {
        assert rules.similar(text, history[skipped + i]);
        return true;
      }
    }
    assert forall k :: skipped <= k < |history| ==> history[k] == recent[k - skipped];
  }

  /** What guardrails makes of a response: the text to go on with, whether a human is
    * called, and the responses remembered. */
  datatype Verdict = Verdict(response: Option<string>, hitl: bool, history: seq<string>)

  function Judge(rules: Rules, response: Option<string>, history: seq<string>): Verdict {
    if !Truthy(response) then Verdict(response, false, history)
    else
      var clean := rules.strip(response.value);
      if rules.blocked(clean) then Verdict(Some(rules.texts.blocked), false, history)
      else if IsLooping(rules, clean, history) || rules.unsure(clean) then
        Verdict(Some(rules.texts.escalation), true, Recent(history + [clean]))
      else Verdict(Some(clean), false, Recent(history + [clean]))
  }

  function GuardrailsNode(rules: Rules, s: GState): GState {
    var v := Judge(rules, s.response, s.history);
    s.(response := v.response, hitl := s.hitl || v.hitl, history := v.history, step := s.step + 1)
  }

  function HitlNode(s: GState): GState {
    s.(hitl := true, step := s.step + 1)
  }

  predicate Dispatches(s: GState, e: Env) {
    Truthy(s.response) && !s.sent && !e.dispatchFails
  }

  function DispatchNode(s: GState, e: Env): GState {
    if !Truthy(s.response) || s.sent then s.(step := s.step + 1)
    else if e.dispatchFails then s.(error := true, step := s.step + 1)
    else s.(sent := true, step := s.step + 1)
  }

  function ResponseRow(s: GState, e: Env): OutboxRow {
    NewCommand(s.tenant, ResponseKey(s.runId), Uuid(e.uuid), "chatwoot", Text(s.response), FromGraph, e.now)
  }

  function DispatchStore(s: GState, e: Env, store: Store): Store {
    if Dispatches(s, e) then store.(outbox := Enqueue(store.outbox, ResponseRow(s, e))) else store
  }

  // ----------------------------------------------------------------------------- routing

  datatype Node =
    Eligibility | CommandAssistant | Media | Context | Agent | Tools | Guardrails | Hitl | Dispatch | Memory | End | Unmapped

  predicate Terminal(n: Node) {
    n.End? || n.Unmapped?
  }

  /** The edge functions together with the builder's mapping: should_continue_after_dispatch
    * may answer "end", for which the builder has no entry. */
  function Route(n: Node, s: GState): Node {
    match n
    case Eligibility => if !s.accepted then End else if s.admin then CommandAssistant else Media
    case Media => if s.error then End else Context
    case Context => if s.error then End else Agent
    case Agent => if s.error || s.hitl then End else if |s.pending| > 0 then Tools else Guardrails
    case Tools => if s.error then End else Agent
    case Guardrails => if s.error then End else if s.hitl then Hitl else Dispatch
    case Dispatch => if s.error then Unmapped else Memory
    case _ => End
  }

  function NodeUpdate(rules: Rules, n: Node, s: GState, e: Env): GState {
    match n
    case Eligibility => EligibilityNode(s, e)
    case CommandAssistant => CommandAssistantNode(s, e)
    case Agent => AgentNode(rules, s, e)
    case Tools => ToolsNode(s, e)
    case Guardrails => GuardrailsNode(rules, s)
    case Hitl => HitlNode(s)
    case Dispatch => DispatchNode(s, e)
    case _ => CountNode(s)
  }

  function NodeStore(rules: Rules, n: Node, s: GState, e: Env, store: Store): Store {
    match n
    case Tools => StoreAfter(rules, s, e.tools, |s.pending|, store)
    case Dispatch => DispatchStore(s, e, store)
    case _ => store
  }

  datatype Conf = Conf(node: Node, s: GState, store: Store)

  function Visit(rules: Rules, c: Conf, e: Env): Conf {
    var s' := NodeUpdate(rules, c.node, c.s, e);
    Conf(Route(c.node, s'), s', NodeStore(rules, c.node, c.s, e, c.store))
  }

  // ------------------------------------------------------------------------- termination

  /** Agent LLM calls still possible when the agent is entered at this step count. */
  function CallsLeft(step: nat): nat {
    Max(0, 2 * MAX_TOOL_ITERATIONS + 1 - step) / 2
  }

  /** Node visits still possible from node n at this step count. */
  function Left(n: Node, step: nat): nat {
    match n
    case End => 0
    case Unmapped => 0
    case Memory => 1
    case Hitl => 1
    case CommandAssistant => 1
    case Dispatch => 2
    case Guardrails => 3
    case Agent => 4 + 2 * CallsLeft(step)
    case Tools => 5 + 2 * CallsLeft(step + 1)
    case Context => 5 + 2 * CallsLeft(step + 1)
    case Media => 6 + 2 * CallsLeft(step + 2)
    case Eligibility => 7 + 2 * CallsLeft(step + 3)
  }

  function VisitsLeft(c: Conf): nat {
    Left(c.node, c.s.step)
  }

  lemma AgentCounts(rules: Rules, s: GState, e: Env)
    ensures var s' := AgentNode(rules, s, e);
            s'.step == s.step + 1 && (|s'.pending| > 0 ==> s.step < 2 * MAX_TOOL_ITERATIONS)
  {
  }

  lemma ToolsCount(s: GState, e: Env)
    ensures ToolsNode(s, e).step == s.step + 1
  {
  }

  lemma GuardrailsCount(rules: Rules, s: GState)
    ensures GuardrailsNode(rules, s).step == s.step + 1
  {
  }

  lemma UpdateCounts(rules: Rules, n: Node, s: GState, e: Env)
    ensures var s' := NodeUpdate(rules, n, s, e);
            s'.step == s.step + 1 && (n.Agent? && |s'.pending| > 0 ==> s.step < 2 * MAX_TOOL_ITERATIONS)
  {
    match n
    case Agent => AgentCounts(rules, s, e);
    case Tools => ToolsCount(s, e);
    case Guardrails => GuardrailsCount(rules, s);
    case _ =>
  }

  lemma RouteRanks(n: Node, s: GState, step: nat)
    requires !Terminal(n) && (n.Agent? && |s.pending| > 0 ==> step < 2 * MAX_TOOL_ITERATIONS)
    ensures Left(Route(n, s), step + 1) < Left(n, step)
  {
  }

  /** Every node adds one to the step count, and uses up a visit. */
  lemma VisitCounts(rules: Rules, c: Conf, e: Env)
    requires !Terminal(c.node)
    ensures Visit(rules, c, e).s.step == c.s.step + 1
    ensures VisitsLeft(Visit(rules, c, e)) < VisitsLeft(c)
  {
    UpdateCounts(rules, c.node, c.s, e);
    RouteRanks(c.node, NodeUpdate(rules, c.node, c.s, e), c.s.step);
  }

  /** The configurations of a run, the last one terminal. */
  function Trace(rules: Rules, c: Conf, envs: nat -> Env, k: nat): seq<Conf>
    decreases VisitsLeft(c)
  {
    if Terminal(c.node) then [c]
    else
      VisitCounts(rules, c, envs(k));
      [c] + Trace(rules, Visit(rules, c, envs(k)), envs, k + 1)
  }

  function Final(tr: seq<Conf>): Conf
    requires |tr| > 0
  {
    tr[|tr| - 1]
  }

  /** Each configuration follows from the one before, one step later. */
  ghost predicate Linked(rules: Rules, tr: seq<Conf>, envs: nat -> Env, k: nat) {
    forall i :: 0 <= i < |tr| - 1 ==>
      !Terminal(tr[i].node) && tr[i + 1].s.step == tr[i].s.step + 1 && tr[i + 1] == Visit(rules, tr[i], envs(k + i))
  }

  lemma LinkedCons(rules: Rules, c: Conf, rest: seq<Conf>, envs: nat -> Env, k: nat)
    requires !Terminal(c.node) && |rest| > 0 && rest[0] == Visit(rules, c, envs(k)) && Linked(rules, rest, envs, k + 1)
    ensures Linked(rules, [c] + rest, envs, k)
  {
    var tr := [c] + rest;
    VisitCounts(rules, c, envs(k));
    forall i | 0 <= i < |tr| - 1
      ensures !Terminal(tr[i].node) && tr[i + 1].s.step == tr[i].s.step + 1
              && tr[i + 1] == Visit(rules, tr[i], envs(k + i))
    {
      assert tr[i + 1] == rest[i];
      assert i > 0 ==> tr[i] == rest[i - 1];
    }
  }

  lemma {:induction false} TraceShape(rules: Rules, c: Conf, envs: nat -> Env, k: nat)
    ensures var tr := Trace(rules, c, envs, k);
            1 <= |tr| <= VisitsLeft(c) + 1 && tr[0] == c && Terminal(Final(tr).node) && Linked(rules, tr, envs, k)
    ensures var tr := Trace(rules, c, envs, k);
            Final(tr).s.step == c.s.step + |tr| - 1
    decreases VisitsLeft(c)
  {
    if !Terminal(c.node) {
      VisitCounts(rules, c, envs(k));
      var c' := Visit(rules, c, envs(k));
      TraceShape(rules, c', envs, k + 1);
      LinkedCons(rules, c, Trace(rules, c', envs, k + 1), envs, k);
    }
  }

  /** A whole run of the graph. */
  function Run(rules: Rules, s: GState, store: Store, envs: nat -> Env): (tr: seq<Conf>)
    ensures |tr| > 0
  {
    TraceShape(rules, Conf(Eligibility, s, store), envs, 0);
    Trace(rules, Conf(Eligibility, s, store), envs, 0)
  }

  lemma RunStep(rules: Rules, s: GState, store: Store, envs: nat -> Env, i: nat)
    requires i < |Run(rules, s, store, envs)|
    ensures var tr := Run(rules, s, store, envs);
            if i == 0 then tr[0] == Conf(Eligibility, s, store)
            else !Terminal(tr[i - 1].node) && tr[i] == Visit(rules, tr[i - 1], envs(i - 1))
  {
    TraceShape(rules, Conf(Eligibility, s, store), envs, 0);
    var tr := Run(rules, s, store, envs);
    if i > 0 {
      assert tr[i - 1 + 1] == Visit(rules, tr[i - 1], envs(0 + (i - 1)));
    }
  }

  predicate CallsLlm(c: Conf) {
    c.node.Agent? && c.s.step < 2 * MAX_TOOL_ITERATIONS
  }

  /** Agent visits that reach the LLM. */
  function LlmCalls(tr: seq<Conf>): nat {
    if |tr| == 0 then 0
    else (if CallsLlm(tr[0]) then 1 else 0) + LlmCalls(tr[1..])
  }

  function LlmCallsLeft(c: Conf): nat {
    match c.node
    case Agent => CallsLeft(c.s.step)
    case Tools => CallsLeft(c.s.step + 1)
    case Context => CallsLeft(c.s.step + 1)
    case Media => CallsLeft(c.s.step + 2)
    case Eligibility => CallsLeft(c.s.step + 3)
    case _ => 0
  }

  lemma {:induction false} LlmCallsBounded(rules: Rules, c: Conf, envs: nat -> Env, k: nat)
    ensures LlmCalls(Trace(rules, c, envs, k)) <= LlmCallsLeft(c)
    decreases VisitsLeft(c)
  {
    if !Terminal(c.node) {
      VisitCounts(rules, c, envs(k));
      var c' := Visit(rules, c, envs(k));
      LlmCallsBounded(rules, c', envs, k + 1);
      assert ([c] + Trace(rules, c', envs, k + 1))[1..] == Trace(rules, c', envs, k + 1);
      assert LlmCallsLeft(c') + (if CallsLlm(c) then 1 else 0) <= LlmCallsLeft(c);
    } else {
      assert [c][1..] == [];
    }
  }

  /** The dispatch node is visited with a response to send, and its insert fails. */
  predicate DispatchBreaks(c: Conf, e: Env) {
    c.node.Dispatch? && Truthy(c.s.response) && !c.s.sent && e.dispatchFails
  }

  /** Dispatch is entered from guardrails only, and never with an error. */
  lemma DispatchEntry(rules: Rules, c: Conf, e: Env)
    requires Visit(rules, c, e).node.Dispatch?
    ensures c.node.Guardrails? && !Visit(rules, c, e).s.error
  {
  }

  lemma UnmappedEntry(rules: Rules, c: Conf, e: Env)
    requires !Terminal(c.node) && (c.node.Dispatch? ==> !c.s.error)
    ensures Visit(rules, c, e).node.Unmapped? <==> DispatchBreaks(c, e)
  {
  }

  lemma RunStepMaps(rules: Rules, s: GState, store: Store, envs: nat -> Env, i: nat)
    requires i + 1 < |Run(rules, s, store, envs)|
    ensures var tr := Run(rules, s, store, envs);
            tr[i + 1].node.Unmapped? <==> DispatchBreaks(tr[i], envs(i))
  {
    var tr := Run(rules, s, store, envs);
    RunStep(rules, s, store, envs, i);
    RunStep(rules, s, store, envs, i + 1);
    if tr[i].node.Dispatch? {
      DispatchEntry(rules, tr[i - 1], envs(i - 1));
    }
    UnmappedEntry(rules, tr[i], envs(i));
  }

  /** A run leaves the graph by the route the builder does not map if and only if its dispatch
    * node had a response to send and the insert failed; every other run ends at END. */
  lemma UnmappedExactly(rules: Rules, s: GState, store: Store, envs: nat -> Env)
    ensures var tr := Run(rules, s, store, envs);
            && (Final(tr).node.Unmapped? <==> exists i :: 0 <= i < |tr| && DispatchBreaks(tr[i], envs(i)))
            && (Final(tr).node.Unmapped? <==> !Final(tr).node.End?)
  {
    var tr := Run(rules, s, store, envs);
    TraceShape(rules, Conf(Eligibility, s, store), envs, 0);
    var n := |tr| - 1;
    if n > 0 {
      RunStepMaps(rules, s, store, envs, n - 1);
    }
    forall i | 0 <= i < |tr| && DispatchBreaks(tr[i], envs(i))
      ensures i + 1 == n && tr[n].node.Unmapped?
    {
      assert i < n;
      RunStepMaps(rules, s, store, envs, i);
    }
  }

  lemma RunGoesOn(rules: Rules, s: GState, store: Store, envs: nat -> Env, i: nat)
    requires i < |Run(rules, s, store, envs)| && !Terminal(Run(rules, s, store, envs)[i].node)
    ensures i + 1 < |Run(rules, s, store, envs)|
    ensures Run(rules, s, store, envs)[i + 1] == Visit(rules, Run(rules, s, store, envs)[i], envs(i))
  {
    TraceShape(rules, Conf(Eligibility, s, store), envs, 0);
    RunStep(rules, s, store, envs, i + 1);
  }

  lemma RunEnds(rules: Rules, s: GState, store: Store, envs: nat -> Env)
    ensures var tr := Run(rules, s, store, envs);
            && (Final(tr).node.End? || Final(tr).node.Unmapped?)
            && (Final(tr).node.Unmapped? ==> exists i :: 0 <= i < |tr| && DispatchBreaks(tr[i], envs(i)))
  {
    UnmappedExactly(rules, s, store, envs);
  }

  lemma RunCallsBounded(rules: Rules, s: GState, store: Store, envs: nat -> Env)
    ensures LlmCalls(Run(rules, s, store, envs)) <= Max(0, 8 - s.step) / 2
  {
    LlmCallsBounded(rules, Conf(Eligibility, s, store), envs, 0);
  }

  lemma RunLength(rules: Rules, s: GState, store: Store, envs: nat -> Env)
    ensures var tr := Run(rules, s, store, envs);
            |tr| - 1 <= 7 + 2 * (Max(0, 8 - s.step) / 2) && Final(tr).s.step == s.step + |tr| - 1
  {
    TraceShape(rules, Conf(Eligibility, s, store), envs, 0);
  }

  /** Every run ends, for every LLM and gateway behaviour: from a carried-in step count s it
    * makes at most max(0, (8 - s) / 2) agent LLM calls, and from 0 visits at most 15 nodes.
    * UnmappedExactly says which of the two ends it reaches. */
  lemma RunTerminates(rules: Rules, s: GState, store: Store, envs: nat -> Env)
    ensures var tr := Run(rules, s, store, envs);
            && (Final(tr).node.End? || Final(tr).node.Unmapped?)
            && (Final(tr).node.Unmapped? ==> exists i :: 0 <= i < |tr| && DispatchBreaks(tr[i], envs(i)))
            && LlmCalls(tr) <= Max(0, 8 - s.step) / 2
            && |tr| - 1 <= 7 + 2 * (Max(0, 8 - s.step) / 2)
            && (s.step == 0 ==> |tr| - 1 <= 15)
            && Final(tr).s.step == s.step + |tr| - 1
  {
    RunEnds(rules, s, store, envs);
    RunCallsBounded(rules, s, store, envs);
    RunLength(rules, s, store, envs);
  }

  lemma FinalStep(rules: Rules, c: Conf, envs: nat -> Env, k: nat)
    ensures |Trace(rules, c, envs, k)| > 0
    ensures !Terminal(c.node) ==>
              && |Trace(rules, Visit(rules, c, envs(k)), envs, k + 1)| > 0
              && Final(Trace(rules, c, envs, k)) == Final(Trace(rules, Visit(rules, c, envs(k)), envs, k + 1))
    ensures Terminal(c.node) ==> Final(Trace(rules, c, envs, k)) == c
  {
    TraceShape(rules, c, envs, k);
    if !Terminal(c.node) {
      TraceShape(rules, Visit(rules, c, envs(k)), envs, k + 1);
    }
  }

  ghost function FinalOf(rules: Rules, c: Conf, envs: nat -> Env, k: nat): Conf {
    FinalStep(rules, c, envs, k);
    Final(Trace(rules, c, envs, k))
  }

  /** The invocation loop itself. */
  method RunGraph(rules: Rules, s: GState, store: Store, envs: nat -> Env) returns (final: Conf, visits: nat)
    ensures Terminal(final.node) && final == FinalOf(rules, Conf(Eligibility, s, store), envs, 0)
    ensures visits <= 7 + 2 * (Max(0, 8 - s.step) / 2) && final.s.step == s.step + visits
  {
    final, visits := Conf(Eligibility, s, store), 0;
    while !Terminal(final.node)
      invariant FinalOf(rules, final, envs, visits) == FinalOf(rules, Conf(Eligibility, s, store), envs, 0)
      invariant visits + VisitsLeft(final) <= 7 + 2 * (Max(0, 8 - s.step) / 2) && final.s.step == s.step + visits
      decreases VisitsLeft(final)
    {
      VisitCounts(rules, final, envs(visits));
      FinalStep(rules, final, envs, visits);
      final := Visit(rules, final, envs(visits));
      visits := visits + 1;
    }
    FinalStep(rules, final, envs, visits);
  }
}
