/** The delivery pipeline as one step system: graph nodes and tools enqueue, the follow-up
  * scheduler promotes due items to the outbox, the drainer executes outbox rows.  One
  * scheduler, one drainer, one monotone clock; each step is one transaction, any commit
  * may fail and either worker may crash between any two steps.
  */
module Delivery {
  import opened Basics
  import opened Keys
  import opened DeliveryTables
  import opened DrainerProtocol

  /** What _promote_item keeps of a fetched item. */
  datatype ItemSnap = ItemSnap(id: nat, key: string, tenant: string, attempts: nat, maxAttempts: int, optedOut: bool)

  datatype Scheduler =
    | Waiting
    | Promoting(queue: seq<ItemSnap>)
    | Inserting(snap: ItemSnap, n: nat, queue: seq<ItemSnap>)  // attempt counted, outbox row not yet written
    | Marking(snap: ItemSnap, n: nat, queue: seq<ItemSnap>)    // outbox row written, item not yet marked
    | Handling(snap: ItemSnap, n: nat, queue: seq<ItemSnap>)   // in the except branch

  datatype SStep =
    | FetchDue(pick: seq<nat>, now: int)
    | Start(commit: bool)
    | Insert(commit: bool)
    | MarkItem(commit: bool)
    | Handle(commit: bool)
    | SchedulerCrash

  datatype Sched = Sched(items: Queue, rows: Outbox, s: Scheduler)

  datatype World = World(clock: int, items: Queue, rows: Outbox, d: Drainer, s: Scheduler)

  datatype Step =
    | Tick(dt: nat)
    | NewItem(key: string, tenant: string, conversation: string, triggerAt: int, maxAttempts: int, optedOut: bool)
    | OptOut(tenant: string, conversation: string)
    | GraphCommand(tenant: string, key: string, uuid: nat, provider: string, content: string)
    | Drain(ds: DStep)
    | Schedule(ss: SStep)

  function ItemSnaps(items: Queue, pick: seq<nat>): (q: seq<ItemSnap>)
    requires forall a :: 0 <= a < |pick| ==> pick[a] < |items|
    ensures |q| == |pick|
  {
    seq(|pick|, a requires 0 <= a < |pick| =>
      var it := items[pick[a]];
      ItemSnap(pick[a], it.key, it.tenant, it.attempts, it.maxAttempts, it.optedOut))
  }

  predicate AtRest(s: Scheduler) {
    s.Waiting? || (s.Promoting? && |s.queue| == 0)
  }

  /** Opted out, or out of attempts, as the snapshot has it. */
  predicate Skips(snap: ItemSnap) {
    snap.optedOut || snap.attempts >= EffectiveMax(snap.maxAttempts)
  }

  function AttemptRow(snap: ItemSnap, n: nat, clock: int): OutboxRow {
    NewCommand(snap.tenant, AttemptKey(snap.key, n), FollowUpId(snap.key, n), "chatwoot", "", FromItem(snap.id, n),
               clock)
  }

  function ApplyStart(p: Sched, commit: bool): Sched
    requires p.s.Promoting? && |p.s.queue| > 0
  {
    var snap, tail := p.s.queue[0], p.s.queue[1..];
    if !commit then p.(s := Waiting)
    else if Skips(snap) then p.(items := SetStatus(p.items, snap.id, ItemSkipped), s := Promoting(tail))
    else
      var items' := IncrementAttempt(p.items, snap.id);
      var n := if snap.id < |items'| then items'[snap.id].attempts else 0;
      p.(items := items', s := Inserting(snap, n, tail))
  }

  function ApplyS(batch: nat, clock: int, p: Sched, step: SStep): Sched {
    match step
    case FetchDue(pick, now) =>
      if AtRest(p.s) && now <= clock
         && IsDueFetch(p.items, now, batch, pick) then p.(s := Promoting(ItemSnaps(p.items, pick))) else p
    case Start(commit) =>
      if p.s.Promoting? && |p.s.queue| > 0 then ApplyStart(p, commit) else p
    case Insert(commit) =>
      if !p.s.Inserting? then p
      else if commit then p.(rows := Enqueue(p.rows, AttemptRow(p.s.snap, p.s.n, clock)),
                             s := Marking(p.s.snap, p.s.n, p.s.queue))
      else p.(s := Handling(p.s.snap, p.s.n, p.s.queue))
    case MarkItem(commit) =>
      if !p.s.Marking? then p
      else if commit then p.(items := SetStatus(p.items, p.s.snap.id, ItemSent), s := Promoting(p.s.queue))
      else p.(s := Handling(p.s.snap, p.s.n, p.s.queue))
    case Handle(commit) =>
      if !p.s.Handling? then p
      else if p.s.n < EffectiveMax(p.s.snap.maxAttempts) then p.(s := Promoting(p.s.queue))
      else if commit then p.(items := SetStatus(p.items, p.s.snap.id, ItemFailed), s := Promoting(p.s.queue))
      else p.(s := Waiting)
    case SchedulerCrash => p.(s := Waiting)
  }

  predicate CidUsed(rows: Outbox, cid: CommandId) {
    exists i :: 0 <= i < |rows| && rows[i].cid == cid
  }

  function Apply(cfg: Config, w: World, step: Step): World {
    match step
    case Tick(dt) => w.(clock := w.clock + dt)
    case NewItem(key, tenant, conversation, triggerAt, maxAttempts, optedOut) =>
      w.(items := EnqueueItem(w.items,
                              Item(key, tenant, conversation, triggerAt, ItemPending, 0, maxAttempts, optedOut)))
    case OptOut(tenant, conversation) => w.(items := OptOutAll(w.items, tenant, conversation))
    case GraphCommand(tenant, key, uuid, provider, content) =>
      if CidUsed(w.rows, Uuid(uuid)) then w
      else w.(rows := Enqueue(w.rows, NewCommand(tenant, key, Uuid(uuid), provider, content, FromGraph, w.clock)))
    case Drain(ds) =>
      var p := ApplyD(cfg, w.clock, Pipe(w.rows, w.d), ds);
      w.(rows := p.rows, d := p.d)
    case Schedule(ss) =>
      var p := ApplyS(cfg.batch, w.clock, Sched(w.items, w.rows, w.s), ss);
      w.(items := p.items, rows := p.rows, s := p.s)
  }

  function Begin(clock: int): World {
    World(clock, [], [], Idle, Waiting)
  }

  function Exec(cfg: Config, w: World, steps: seq<Step>): World {
    if |steps| == 0 then w else Apply(cfg, Exec(cfg, w, steps[..|steps| - 1]), steps[|steps| - 1])
  }

  lemma ExecSnoc(cfg: Config, w: World, steps: seq<Step>, last: Step)
    ensures Exec(cfg, w, steps + [last]) == Apply(cfg, Exec(cfg, w, steps), last)
  {
    assert (steps + [last])[..|steps + [last]| - 1] == steps;
  }

  lemma {:induction false} ExecAppend(cfg: Config, w: World, a: seq<Step>, b: seq<Step>)
    ensures Exec(cfg, w, a + b) == Exec(cfg, Exec(cfg, w, a), b)
  {
    if |b| == 0 {
      assert a + b == a;
    } else {
      assert (a + b)[..|a + b| - 1] == a + b[..|b| - 1];
      ExecAppend(cfg, w, a, b[..|b| - 1]);
    }
  }

  // ------------------------------------------------------------ scheduler invariant

  function Cap(item: Item): nat {
    Max(0, EffectiveMax(item.maxAttempts))
  }

  predicate RowOfItem(items: Queue, row: OutboxRow) {
    && (row.cid.FollowUpId? ==> row.origin.FromItem?)
    && (row.origin.FromItem? ==>
          && row.origin.item < |items|
          && var it := items[row.origin.item];
             && 1 <= row.origin.n <= it.attempts
             && row.tenant == it.tenant && row.key == AttemptKey(it.key, row.origin.n)
             && row.cid == FollowUpId(it.key, row.origin.n))
  }

  predicate ItemOk(rows: Outbox, it: Item) {
    && it.attempts <= Cap(it)
    && (it.status.ItemSent? ==> it.attempts > 0 && HasKey(rows, it.tenant, AttemptKey(it.key, it.attempts)))
    && (it.status.ItemFailed? ==> it.attempts >= 1 && it.attempts >= EffectiveMax(it.maxAttempts))
    && (it.status.ItemSkipped? ==> it.optedOut || it.attempts >= EffectiveMax(it.maxAttempts))
  }

  predicate SameItem(items: Queue, snap: ItemSnap) {
    && snap.id < |items|
    && var it := items[snap.id];
       && it.key == snap.key && it.tenant == snap.tenant && it.maxAttempts == snap.maxAttempts
       && it.status.ItemPending? && (snap.optedOut ==> it.optedOut)
  }

  predicate ItemQueueOk(items: Queue, q: seq<ItemSnap>) {
    && (forall a :: 0 <= a < |q| ==> SameItem(items, q[a]) && items[q[a].id].attempts == q[a].attempts)
    && (forall a, b :: 0 <= a < b < |q| ==> q[a].id != q[b].id)
  }

  predicate InHand(items: Queue, snap: ItemSnap, n: nat, q: seq<ItemSnap>) {
    && SameItem(items, snap) && items[snap.id].attempts == n && 1 <= n <= EffectiveMax(snap.maxAttempts)
    && !snap.optedOut
    && (forall a :: 0 <= a < |q| ==> q[a].id != snap.id)
  }

  function ItemsQueued(s: Scheduler): seq<ItemSnap> {
    if s.Waiting? then [] else s.queue
  }

  predicate SchedulerOk(items: Queue, rows: Outbox, s: Scheduler) {
    && ItemQueueOk(items, ItemsQueued(s))
    && (s.Inserting? || s.Marking? || s.Handling? ==> InHand(items, s.snap, s.n, s.queue))
    && (s.Marking? ==> HasKey(rows, s.snap.tenant, AttemptKey(s.snap.key, s.n)))
  }

  predicate FollowInv(p: Sched) {
    && UniqueItemKeys(p.items) && UniqueKeys(p.rows)
    && (forall i :: 0 <= i < |p.items| ==> ItemOk(p.rows, p.items[i]))
    && (forall r :: 0 <= r < |p.rows| ==> RowOfItem(p.items, p.rows[r]))
    && SchedulerOk(p.items, p.rows, p.s)
  }

  predicate Inv(cfg: Config, w: World) {
    PipeInv(cfg, w.clock, Pipe(w.rows, w.d)) && FollowInv(Sched(w.items, w.rows, w.s))
  }

  // --------------------------------------------------------- environment and drainer

  lemma AppendKeepsPipe(cfg: Config, clock: int, p: Pipe, row: OutboxRow)
    requires PipeInv(cfg, clock, p) && !CidUsed(p.rows, row.cid)
    requires row.status.Pending? && row.retry == 0 && row.log == [] && row.lost == 0
    ensures PipeInv(cfg, clock, Pipe(p.rows + [row], p.d))
  {
    var p' := Pipe(p.rows + [row], p.d);
    forall i | 0 <= i < |p'.rows|
      ensures RowOk(cfg, clock, p'.rows[i], Open(p.d, i))
    {
      if i < |p.rows| {
        assert RowOk(cfg, clock, p.rows[i], Open(p.d, i));
      }
    }
    forall a | 0 <= a < |QueueOf(p.d)|
      ensures SnapOk(p'.rows, clock, QueueOf(p.d)[a])
    {
      assert SnapOk(p.rows, clock, QueueOf(p.d)[a]);
    }
  }

  lemma AppendKeepsFollow(p: Sched, row: OutboxRow)
    requires FollowInv(p) && !HasKey(p.rows, row.tenant, row.key) && RowOfItem(p.items, row)
    ensures FollowInv(p.(rows := p.rows + [row]))
  {
    var rows' := p.rows + [row];
    forall tenant, key | HasKey(p.rows, tenant, key)
      ensures HasKey(rows', tenant, key)
    {
      var i :| 0 <= i < |p.rows| && p.rows[i].tenant == tenant && p.rows[i].key == key;
      assert rows'[i] == p.rows[i];
    }
    forall i | 0 <= i < |p.items|
      ensures ItemOk(rows', p.items[i])
    {
      assert ItemOk(p.rows, p.items[i]);
    }
    forall i, j | 0 <= i < j < |rows'|
      ensures !(rows'[i].tenant == rows'[j].tenant && rows'[i].key == rows'[j].key)
    {
      assert j < |p.rows| ==> rows'[j] == p.rows[j];
      assert rows'[i] == p.rows[i];
    }
  }

  lemma DrainKeepsFollow(p: Sched, rows': Outbox)
    requires FollowInv(p) && RowsKept(p.rows, rows')
    ensures FollowInv(p.(rows := rows'))
  {
    forall tenant, key | HasKey(p.rows, tenant, key)
      ensures HasKey(rows', tenant, key)
    {
      var i :| 0 <= i < |p.rows| && p.rows[i].tenant == tenant && p.rows[i].key == key;
      assert SameCommand(p.rows[i], rows'[i]);
    }
    forall i | 0 <= i < |p.items|
      ensures ItemOk(rows', p.items[i])
    {
      assert ItemOk(p.rows, p.items[i]);
    }
    forall r | 0 <= r < |rows'|
      ensures RowOfItem(p.items, rows'[r])
    {
      assert SameCommand(p.rows[r], rows'[r]) && RowOfItem(p.items, p.rows[r]);
    }
    forall i, j | 0 <= i < j < |rows'|
      ensures !(rows'[i].tenant == rows'[j].tenant && rows'[i].key == rows'[j].key)
    {
      assert SameCommand(p.rows[i], rows'[i]) && SameCommand(p.rows[j], rows'[j]);
    }
  }

  /** Items only gain entries, or change in ways the scheduler's notes survive. */
  predicate ItemsGrow(items: Queue, items': Queue) {
    && |items| <= |items'|
    && (forall i :: 0 <= i < |items| ==> items'[i] == items[i] || items'[i] == items[i].(optedOut := true))
    && (forall i :: |items| <= i < |items'| ==> items'[i].attempts == 0 && items'[i].status.ItemPending?)
  }

  lemma GrowKeepsFollow(p: Sched, items': Queue)
    requires FollowInv(p) && ItemsGrow(p.items, items') && UniqueItemKeys(items')
    ensures FollowInv(p.(items := items'))
  {
    forall i | 0 <= i < |items'|
      ensures ItemOk(p.rows, items'[i])
    {
      if i < |p.items| {
        assert ItemOk(p.rows, p.items[i]);
      }
    }
    forall r | 0 <= r < |p.rows|
      ensures RowOfItem(items', p.rows[r])
    {
      assert RowOfItem(p.items, p.rows[r]);
    }
    var q := ItemsQueued(p.s);
    forall a | 0 <= a < |q|
      ensures SameItem(items', q[a]) && items'[q[a].id].attempts == q[a].attempts
    {
      assert SameItem(p.items, q[a]);
    }
  }

  // ------------------------------------------------------------------ scheduler steps

  lemma FetchDueKeeps(batch: nat, clock: int, p: Sched, pick: seq<nat>, now: int)
    requires FollowInv(p) && AtRest(p.s) && IsDueFetch(p.items, now, batch, pick)
    ensures FollowInv(p.(s := Promoting(ItemSnaps(p.items, pick))))
  {
    var q := ItemSnaps(p.items, pick);
    forall a | 0 <= a < |q|
      ensures SameItem(p.items, q[a]) && p.items[q[a].id].attempts == q[a].attempts
    {
      assert ItemDue(p.items[pick[a]], now);
    }
  }

  /** One item in the scheduler's hand changes; everything queued is elsewhere. */
  lemma ItemStepKeeps(p: Sched, id: nat, it': Item, s': Scheduler)
    requires FollowInv(p) && id < |p.items|
    requires it'.key == p.items[id].key && it'.tenant == p.items[id].tenant && it'.attempts >= p.items[id].attempts
    requires ItemOk(p.rows, it')
    requires ItemQueueOk(p.items, ItemsQueued(s')) && forall a :: 0 <= a < |ItemsQueued(s')| ==>
             ItemsQueued(s')[a].id != id
    requires s'.Promoting? || (s'.Inserting? && InHand(p.items[id := it'], s'.snap, s'.n, s'.queue))
    ensures FollowInv(Sched(p.items[id := it'], p.rows, s'))
  {
    var items' := p.items[id := it'];
    forall r | 0 <= r < |p.rows|
      ensures RowOfItem(items', p.rows[r])
    {
      assert RowOfItem(p.items, p.rows[r]);
    }
    var q := ItemsQueued(s');
    forall a | 0 <= a < |q|
      ensures SameItem(items', q[a]) && items'[q[a].id].attempts == q[a].attempts
    {
      assert SameItem(p.items, q[a]);
    }
  }

  lemma TailOfItems(items: Queue, q: seq<ItemSnap>)
    requires ItemQueueOk(items, q) && |q| > 0
    ensures ItemQueueOk(items, q[1..]) && forall a :: 0 <= a < |q[1..]| ==> q[1..][a].id != q[0].id
  {
    assert forall a :: 0 <= a < |q[1..]| ==> q[1..][a] == q[a + 1];
  }

  lemma StartKeeps(p: Sched, commit: bool)
    requires FollowInv(p) && p.s.Promoting? && |p.s.queue| > 0
    ensures FollowInv(ApplyStart(p, commit))
  {
    var snap, tail := p.s.queue[0], p.s.queue[1..];
    TailOfItems(p.items, p.s.queue);
    assert SameItem(p.items, snap) && p.items[snap.id].attempts == snap.attempts;
    assert ItemOk(p.rows, p.items[snap.id]);
    if commit {
      var it := p.items[snap.id];
      if Skips(snap) {
        ItemStepKeeps(p, snap.id, it.(status := ItemSkipped), Promoting(tail));
      } else {
        ItemStepKeeps(p, snap.id, it.(attempts := it.attempts + 1), Inserting(snap, it.attempts + 1, tail));
      }
    }
  }

  /** The attempt's id is free whenever its key is. */
  lemma AttemptCidFree(p: Sched, snap: ItemSnap, n: nat)
    requires FollowInv(p) && SameItem(p.items, snap) && !HasKey(p.rows, snap.tenant, AttemptKey(snap.key, n))
    ensures !CidUsed(p.rows, FollowUpId(snap.key, n))
  {
    forall r | 0 <= r < |p.rows|
      ensures p.rows[r].cid != FollowUpId(snap.key, n)
    {
      assert RowOfItem(p.items, p.rows[r]);
    }
  }

  lemma EnqueueHasKey(rows: Outbox, row: OutboxRow)
    ensures HasKey(Enqueue(rows, row), row.tenant, row.key)
  {
    if !HasKey(rows, row.tenant, row.key) {
      assert (rows + [row])[|rows|] == row;
    }
  }

  lemma InsertKeeps(cfg: Config, clock: int, p: Sched, d: Drainer)
    requires FollowInv(p) && p.s.Inserting? && PipeInv(cfg, clock, Pipe(p.rows, d))
    ensures var rows' := Enqueue(p.rows, AttemptRow(p.s.snap, p.s.n, clock));
            FollowInv(Sched(p.items, rows', Marking(p.s.snap, p.s.n, p.s.queue))) && PipeInv(cfg, clock, Pipe(rows', d))
  {
    var row := AttemptRow(p.s.snap, p.s.n, clock);
    EnqueueHasKey(p.rows, row);
    if !HasKey(p.rows, row.tenant, row.key) {
      AttemptCidFree(p, p.s.snap, p.s.n);
      AppendKeepsPipe(cfg, clock, Pipe(p.rows, d), row);
      AppendKeepsFollow(p, row);
    }
  }

  lemma EndKeeps(p: Sched, st: ItemStatus)
    requires FollowInv(p) && (p.s.Marking? || p.s.Handling?)
    requires st.ItemSent? ==> p.s.Marking?
    requires !st.ItemSkipped? && (st.ItemFailed? ==> p.s.n >= EffectiveMax(p.s.snap.maxAttempts))
    ensures FollowInv(Sched(SetStatus(p.items, p.s.snap.id, st), p.rows, Promoting(p.s.queue)))
  {
    var it := p.items[p.s.snap.id];
    assert ItemOk(p.rows, it);
    ItemStepKeeps(p, p.s.snap.id, it.(status := st), Promoting(p.s.queue));
  }

  /** Every scheduler step but the insert leaves the outbox, and keeps the invariant. */
  lemma QuietScheduleKeeps(batch: nat, clock: int, p: Sched, ss: SStep)
    requires FollowInv(p) && !ss.Insert?
    ensures FollowInv(ApplyS(batch, clock, p, ss)) && ApplyS(batch, clock, p, ss).rows == p.rows
  {
    match ss
    case FetchDue(pick, now) =>
      if AtRest(p.s) && now <= clock && IsDueFetch(p.items, now, batch, pick) {
        FetchDueKeeps(batch, clock, p, pick, now);
      }
    case Start(commit) =>
      if p.s.Promoting? && |p.s.queue| > 0 {
        StartKeeps(p, commit);
      }
    case MarkItem(commit) =>
      if p.s.Marking? && commit {
        EndKeeps(p, ItemSent);
      }
    case Handle(commit) =>
      if p.s.Handling? && p.s.n >= EffectiveMax(p.s.snap.maxAttempts) {
        EndKeeps(p, ItemFailed);
      }
    case SchedulerCrash =>
  }

  lemma ScheduleKeeps(cfg: Config, w: World, ss: SStep)
    requires Inv(cfg, w)
    ensures Inv(cfg, Apply(cfg, w, Schedule(ss)))
  {
    var p := Sched(w.items, w.rows, w.s);
    if !ss.Insert? {
      QuietScheduleKeeps(cfg.batch, w.clock, p, ss);
    } else if p.s.Inserting? && ss.commit {
      InsertKeeps(cfg, w.clock, p, w.d);
    }
  }

  lemma StepKeepsInv(cfg: Config, w: World, step: Step)
    requires Inv(cfg, w)
    ensures Inv(cfg, Apply(cfg, w, step))
  {
    var p := Sched(w.items, w.rows, w.s);
    match step
    case Tick(dt) =>
      TickKeepsPipe(cfg, w.clock, w.clock + dt, Pipe(w.rows, w.d));
    case NewItem(key, tenant, conversation, triggerAt, maxAttempts, optedOut) =>
      GrowKeepsFollow(p, Apply(cfg, w, step).items);
    case OptOut(tenant, conversation) =>
      GrowKeepsFollow(p, Apply(cfg, w, step).items);
    case GraphCommand(tenant, key, uuid, provider, content) =>
      var row := NewCommand(tenant, key, Uuid(uuid), provider, content, FromGraph, w.clock);
      if !CidUsed(w.rows, Uuid(uuid)) && !HasKey(w.rows, tenant, key) {
        AppendKeepsPipe(cfg, w.clock, Pipe(w.rows, w.d), row);
        AppendKeepsFollow(p, row);
      }
    case Drain(ds) =>
      DStepKeepsPipe(cfg, w.clock, Pipe(w.rows, w.d), ds);
      DStepFrame(cfg, w.clock, Pipe(w.rows, w.d), ds);
      DrainKeepsFollow(p, Apply(cfg, w, step).rows);
    case Schedule(ss) =>
      ScheduleKeeps(cfg, w, ss);
  }

  lemma {:induction false} ExecKeepsInv(cfg: Config, clock: int, steps: seq<Step>)
    ensures Inv(cfg, Exec(cfg, Begin(clock), steps))
  {
    if |steps| > 0 {
      ExecKeepsInv(cfg, clock, steps[..|steps| - 1]);
      StepKeepsInv(cfg, Exec(cfg, Begin(clock), steps[..|steps| - 1]), steps[|steps| - 1]);
    }
  }
}
