/** The agent graph on top of the delivery pipeline: nodes of a run write to the very tables
  * that the scheduler and the drainer work on, in between any of their steps. */
module GraphDelivery {
  import opened Basics
  import opened Keys
  import opened DeliveryTables
  import opened AgentGraph
  import D = Delivery
  import P = DrainerProtocol
  import R = DeliveryResults

  datatype Joint = Joint(node: Node, s: GState, w: D.World)

  /** A node is visited, or anything happens in the pipeline: ticks, workers, other runs. */
  datatype JStep = NodeVisit(e: Env) | InPipeline(step: D.Step)

  /** uuid4 ids are new, and the clock readings are those of the visit. */
  predicate Drawn(n: Node, s: GState, e: Env, w: D.World) {
    && (n.Tools? ==>
          && (forall k: nat :: k < |s.pending| ==>
              e.tools(k).now == w.clock && !D.CidUsed(w.rows, Uuid(e.tools(k).uuid)))
          && (forall k: nat, l: nat :: k < l < |s.pending| ==> e.tools(k).uuid != e.tools(l).uuid))
    && (n.Dispatch? ==> e.now == w.clock && !D.CidUsed(w.rows, Uuid(e.uuid)))
  }

  function StoreOf(w: D.World): Store {
    Store(w.rows, w.items)
  }

  function WithStore(w: D.World, store: Store): D.World {
    w.(rows := store.outbox, items := store.queue)
  }

  function JApply(rules: Rules, cfg: P.Config, j: Joint, step: JStep): Joint {
    match step
    case InPipeline(ds) => j.(w := D.Apply(cfg, j.w, ds))
    case NodeVisit(e) =>
      if Terminal(j.node) || !Drawn(j.node, j.s, e, j.w) then j
      else
        var c := Visit(rules, Conf(j.node, j.s, StoreOf(j.w)), e);
        Joint(c.node, c.s, WithStore(j.w, c.store))
  }

  function JExec(rules: Rules, cfg: P.Config, j: Joint, steps: seq<JStep>): Joint {
    if |steps| == 0 then j else JApply(rules, cfg, JExec(rules, cfg, j, steps[..|steps| - 1]), steps[|steps| - 1])
  }

  /** A visit with new ids and current clock readings does to state and tables what the node
    * does to them, and leaves clock and workers. */
  lemma JointVisits(rules: Rules, cfg: P.Config, j: Joint, e: Env)
    requires !Terminal(j.node)
    requires j.node.Tools? ==> forall k: nat :: k < |j.s.pending| ==>
               e.tools(k).now == j.w.clock && forall i :: 0 <= i < |j.w.rows| ==>
                 j.w.rows[i].cid != Uuid(e.tools(k).uuid)
    requires j.node.Tools? ==> forall k: nat, l: nat :: k < l < |j.s.pending| ==> e.tools(k).uuid != e.tools(l).uuid
    requires j.node.Dispatch? ==> e.now == j.w.clock && forall i :: 0 <= i < |j.w.rows| ==>
             j.w.rows[i].cid != Uuid(e.uuid)
    ensures var j' := JApply(rules, cfg, j, NodeVisit(e));
            var c := Visit(rules, Conf(j.node, j.s, Store(j.w.rows, j.w.items)), e);
            && j'.node == c.node && j'.s == c.s && j'.w.rows == c.store.outbox && j'.w.items == c.store.queue
            && j'.w.clock == j.w.clock && j'.w.d == j.w.d && j'.w.s == j.w.s
  {
  }

  // --------------------------------------------------- writes of the graph are pipeline steps

  function CallSteps(rules: Rules, s: GState, call: ToolCall, e: ToolEnv): seq<D.Step> {
    match WriteOf(call.name, e)
    case Nothing => []
    case ToOutbox => [D.GraphCommand(rules.toolTenant, ToolKey(s.runId, call.callId), e.uuid, "chatwoot", call.args)]
    case ToQueue => [D.NewItem(ToolKey(s.runId, call.callId), rules.toolTenant, call.args, e.trigger, e.maxAttempts,
                               false)]
  }

  lemma ExecOne(cfg: P.Config, w: D.World, step: D.Step)
    ensures D.Exec(cfg, w, [step]) == D.Apply(cfg, w, step)
  {
    assert [] + [step] == [step];
    D.ExecSnoc(cfg, w, [], step);
  }

  lemma CallIsAStep(rules: Rules, cfg: P.Config, s: GState, call: ToolCall, e: ToolEnv, w: D.World)
    requires e.now == w.clock && !D.CidUsed(w.rows, Uuid(e.uuid))
    ensures D.Exec(cfg, w, CallSteps(rules, s, call, e)) == WithStore(w, InvokeStore(rules, s, call, e, StoreOf(w)))
  {
    var steps := CallSteps(rules, s, call, e);
    if |steps| > 0 {
      ExecOne(cfg, w, steps[0]);
    }
  }

  /** The ids used after n calls are those used before, and those drawn for the calls. */
  lemma {:induction false} CidsAfter(rules: Rules, s: GState, envs: nat -> ToolEnv, n: nat, store: Store,
                                     cid: CommandId)
    requires n <= |s.pending| && D.CidUsed(StoreAfter(rules, s, envs, n, store).outbox, cid)
    ensures D.CidUsed(store.outbox, cid) || exists k: nat :: k < n && cid == Uuid(envs(k).uuid)
  {
    if n > 0 {
      var mid, out := StoreAfter(rules, s, envs, n - 1, store).outbox, StoreAfter(rules, s, envs, n, store).outbox;
      var i :| 0 <= i < |out| && out[i].cid == cid;
      if i < |mid| {
        assert mid[i] == out[i];
        CidsAfter(rules, s, envs, n - 1, store, cid);
      } else {
        assert cid == Uuid(envs(n - 1).uuid);
      }
    }
  }

  lemma {:induction false} CallsAreSteps(rules: Rules, cfg: P.Config, s: GState, e: Env, n: nat, w: D.World)
    returns (steps: seq<D.Step>)
    requires n <= |s.pending| && Drawn(Tools, s, e, w)
    ensures D.Exec(cfg, w, steps) == WithStore(w, StoreAfter(rules, s, e.tools, n, StoreOf(w)))
  {
    if n == 0 {
      steps := [];
    } else {
      var before := CallsAreSteps(rules, cfg, s, e, n - 1, w);
      var mid := WithStore(w, StoreAfter(rules, s, e.tools, n - 1, StoreOf(w)));
      var last := CallSteps(rules, s, s.pending[n - 1], e.tools(n - 1));
      if D.CidUsed(mid.rows, Uuid(e.tools(n - 1).uuid)) {
        CidsAfter(rules, s, e.tools, n - 1, StoreOf(w), Uuid(e.tools(n - 1).uuid));
        assert false;
      }
      CallIsAStep(rules, cfg, s, s.pending[n - 1], e.tools(n - 1), mid);
      steps := before + last;
      D.ExecAppend(cfg, w, before, last);
    }
  }

  lemma VisitIsSteps(rules: Rules, cfg: P.Config, n: Node, s: GState, e: Env, w: D.World) returns (steps: seq<D.Step>)
    requires !Terminal(n) && Drawn(n, s, e, w)
    ensures D.Exec(cfg, w, steps) == WithStore(w, NodeStore(rules, n, s, e, StoreOf(w)))
  {
    steps := [];
    match n
    case Tools =>
      steps := CallsAreSteps(rules, cfg, s, e, |s.pending|, w);
    case Dispatch =>
      if Dispatches(s, e) {
        var step := D.GraphCommand(s.tenant, ResponseKey(s.runId), e.uuid, "chatwoot", Text(s.response));
        ExecOne(cfg, w, step);
        steps := [step];
      }
    case _ =>
  }

  /** Whatever a run does between the steps of the pipeline, the pipeline's world is one that
    * the pipeline reaches by its own steps: every enqueue of the graph is one of them. */
  lemma {:induction false} JointIsDelivery(rules: Rules, cfg: P.Config, clock: int, before: seq<D.Step>, s: GState,
                                           jsteps: seq<JStep>)
    returns (steps: seq<D.Step>)
    ensures JExec(rules, cfg, Joint(Eligibility, s, D.Exec(cfg, D.Begin(clock), before)), jsteps).w
            == D.Exec(cfg, D.Begin(clock), steps)
  {
    var start := Joint(Eligibility, s, D.Exec(cfg, D.Begin(clock), before));
    if |jsteps| == 0 {
      steps := before;
    } else {
      var init := JointIsDelivery(rules, cfg, clock, before, s, jsteps[..|jsteps| - 1]);
      var j := JExec(rules, cfg, start, jsteps[..|jsteps| - 1]);
      var more: seq<D.Step> := [];
      match jsteps[|jsteps| - 1] {
        case InPipeline(ds) =>
          ExecOne(cfg, j.w, ds);
          more := [ds];
        case NodeVisit(e) =>
          if !Terminal(j.node) && Drawn(j.node, j.s, e, j.w) {
            more := VisitIsSteps(rules, cfg, j.node, j.s, e, j.w);
          }
      }
      D.ExecAppend(cfg, D.Begin(clock), init, more);
      steps := init + more;
    }
  }

  // ------------------------------------------------------------------ POSTs of a response

  predicate Under(row: OutboxRow, tenant: string, key: string) {
    row.tenant == tenant && row.key == key
  }

  /** Write POSTs, and lost status commits, of all rows under one key. */
  function KeyPosts(rows: Outbox, tenant: string, key: string): nat {
    if |rows| == 0 then 0
    else
      var last := rows[|rows| - 1];
      KeyPosts(rows[..|rows| - 1], tenant, key) + if Under(last, tenant, key) then P.TotalPosts(last.log) else 0
  }

  function KeyLost(rows: Outbox, tenant: string, key: string): nat {
    if |rows| == 0 then 0
    else
      var last := rows[|rows| - 1];
      KeyLost(rows[..|rows| - 1], tenant, key) + if Under(last, tenant, key) then last.lost else 0
  }

  lemma {:induction false} KeyPostsOfOne(cfg: P.Config, rows: Outbox, tenant: string, key: string)
    requires UniqueKeys(rows) && R.AllBounded(cfg, rows)
    ensures !HasKey(rows, tenant, key) ==> KeyPosts(rows, tenant, key) == 0 && KeyLost(rows, tenant, key) == 0
    ensures HasKey(rows, tenant, key) ==>
              exists i :: 0 <= i < |rows| && Under(rows[i], tenant, key) && R.PostsBounded(cfg, rows[i])
                          && KeyPosts(rows, tenant, key) == P.TotalPosts(rows[i].log)
                          && KeyLost(rows, tenant, key) == rows[i].lost
  {
    if |rows| > 0 {
      var init, n := rows[..|rows| - 1], |rows| - 1;
      KeyPostsOfOne(cfg, init, tenant, key);
      assert forall i :: 0 <= i < n ==> init[i] == rows[i];
      if Under(rows[n], tenant, key) {
        assert !HasKey(init, tenant, key);
      } else if HasKey(init, tenant, key) {
        var i :| 0 <= i < |init| && Under(init[i], tenant, key) && R.PostsBounded(cfg, init[i])
                 && KeyPosts(init, tenant, key) == P.TotalPosts(init[i].log)
                 && KeyLost(init, tenant, key) == init[i].lost;
        assert Under(rows[i], tenant, key);
      }
    }
  }

  lemma KeyBound(cfg: P.Config, rows: Outbox, tenant: string, key: string)
    requires UniqueKeys(rows) && R.AllBounded(cfg, rows)
    ensures KeyPosts(rows, tenant, key) <= (cfg.maxRetries + KeyLost(rows, tenant, key)) * cfg.mcpRetries
  {
    KeyPostsOfOne(cfg, rows, tenant, key);
  }

  lemma KeysInRun(cfg: P.Config, clock: int, steps: seq<D.Step>)
    ensures UniqueKeys(D.Exec(cfg, D.Begin(clock), steps).rows)
  {
    D.ExecKeepsInv(cfg, clock, steps);
  }

  /** From the graph to the provider: however its nodes interleave with the workers, one run's
    * response causes at most (M + lost commits) * R write POSTs, M the outbox's and R the
    * adapter's retries; and so does each tool call. */
  lemma PostsPerKey(rules: Rules, cfg: P.Config, clock: int, before: seq<D.Step>, s: GState, jsteps: seq<JStep>,
                    tenant: string, key: string)
    ensures var rows := JExec(rules, cfg, Joint(Eligibility, s, D.Exec(cfg, D.Begin(clock), before)), jsteps).w.rows;
            KeyPosts(rows, tenant, key) <= (cfg.maxRetries + KeyLost(rows, tenant, key)) * cfg.mcpRetries
  {
    var steps := JointIsDelivery(rules, cfg, clock, before, s, jsteps);
    KeysInRun(cfg, clock, steps);
    R.PostsInRun(cfg, clock, steps);
    KeyBound(cfg, D.Exec(cfg, D.Begin(clock), steps).rows, tenant, key);
  }
}
