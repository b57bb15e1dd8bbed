/** FollowUpRepository and FollowUpSchedulerWorker as objects.  Promoting one item is a run
  * of Delivery's scheduler steps, with any of its commits failing. */
module FollowUpScheduler {
  import opened Basics
  import opened Keys
  import opened DeliveryTables
  import opened DrainerProtocol
  import opened Delivery
  import opened Sorting
  import OutboxDrainer

  /** Which of the commits of one _promote_item call succeed. */
  datatype Commits = Commits(start: bool, insert: bool, mark: bool, handle: bool)

  predicate NoFault(c: Commits) {
    c.start && c.insert && c.mark && c.handle
  }

  function ExecS(clock: int, p: Sched, steps: seq<SStep>): Sched
    decreases |steps|
  {
    if |steps| == 0 then p else ExecS(clock, ApplyS(0, clock, p, steps[0]), steps[1..])
  }

  /** Steps that do not apply do nothing, so one list covers every path. */
  function Promote(clock: int, p: Sched, c: Commits): Sched {
    ExecS(clock, p, [Start(c.start), Insert(c.insert), MarkItem(c.mark), Handle(c.handle)])
  }

  lemma PromoteUnfolds(clock: int, p: Sched, c: Commits)
    ensures Promote(clock, p, c)
            == var p1 := ApplyS(0, clock, p, Start(c.start));
               var p2 := ApplyS(0, clock, p1, Insert(c.insert));
               ApplyS(0, clock, ApplyS(0, clock, p2, MarkItem(c.mark)), Handle(c.handle))
  {
    var steps := [Start(c.start), Insert(c.insert), MarkItem(c.mark), Handle(c.handle)];
    var p1 := ApplyS(0, clock, p, steps[0]);
    var p2 := ApplyS(0, clock, p1, steps[1]);
    var p3 := ApplyS(0, clock, p2, steps[2]);
    assert ExecS(clock, p, steps) == ExecS(clock, p1, steps[1..]);
    assert ExecS(clock, p1, steps[1..]) == ExecS(clock, p2, steps[2..]) by { assert steps[1..][1..] == steps[2..]; }
    assert ExecS(clock, p2, steps[2..]) == ExecS(clock, p3, steps[3..]) by { assert steps[2..][1..] == steps[3..]; }
    var p4 := ApplyS(0, clock, p3, steps[3]);
    assert ExecS(clock, p3, steps[3..])
           == ExecS(clock, p4, []) by { assert steps[3..][0] == steps[3] && steps[3..][1..] == []; }
    assert ExecS(clock, p4, []) == p4;
  }

  lemma PromoteEnds(clock: int, p: Sched, c: Commits)
    requires p.s.Promoting? && |p.s.queue| > 0
    ensures var p' := Promote(clock, p, c);
            p'.s == Waiting || p'.s == Promoting(p.s.queue[1..])
  {
    PromoteUnfolds(clock, p, c);
  }

  /** The rest of the batch, item by item; an exception ends it. */
  function PromoteAll(clock: int, p: Sched, commits: nat -> Commits, k: nat): Sched
    decreases if p.s.Promoting? then |p.s.queue| else 0
  {
    if p.s.Promoting? && |p.s.queue| > 0 then
      PromoteEnds(clock, p, commits(k));
      PromoteAll(clock, Promote(clock, p, commits(k)), commits, k + 1)
    else p
  }

  lemma PromoteKeepsFollow(clock: int, p: Sched, c: Commits)
    requires FollowInv(p) && p.s.Promoting?
    ensures FollowInv(Promote(clock, p, c))
  {
    PromoteUnfolds(clock, p, c);
    var a := ApplyS(0, clock, p, Start(c.start));
    var b := ApplyS(0, clock, a, Insert(c.insert));
    var d := ApplyS(0, clock, b, MarkItem(c.mark));
    StepKeepsFollow(clock, p, Start(c.start));
    StepKeepsFollow(clock, a, Insert(c.insert));
    StepKeepsFollow(clock, b, MarkItem(c.mark));
    StepKeepsFollow(clock, d, Handle(c.handle));
  }

  lemma StepKeepsFollow(clock: int, p: Sched, ss: SStep)
    requires FollowInv(p) && !ss.FetchDue?
    ensures FollowInv(ApplyS(0, clock, p, ss))
  {
    match ss
    case Start(commit) =>
      if p.s.Promoting? && |p.s.queue| > 0 {
        StartKeeps(p, commit);
      }
    case Insert(commit) =>
      if p.s.Inserting? && commit {
        var row := AttemptRow(p.s.snap, p.s.n, clock);
        EnqueueHasKey(p.rows, row);
        if !HasKey(p.rows, row.tenant, row.key) {
          AppendKeepsFollow(p, row);
        }
      }
    case MarkItem(commit) =>
      if p.s.Marking? && commit {
        EndKeeps(p, ItemSent);
      }
    case Handle(commit) =>
      if p.s.Handling? && p.s.n >= EffectiveMax(p.s.snap.maxAttempts) {
        EndKeeps(p, ItemFailed);
      }
    case SchedulerCrash =>
  }

  /** What becomes of a fetched item, for any commits: skipped if it is opted out or has used up
    * its limit; otherwise one attempt more, a pending outbox row of that attempt unless its key
    * is taken, and then sent, failed at the limit, or left pending for the next poll. */
  ghost predicate ItemBecomes(it: Item, it': Item, rows: Outbox, rows': Outbox, snap: ItemSnap, c: Commits, now: int,
                              raised: bool) {
    var n, limit := snap.attempts + 1, if snap.maxAttempts == 0 then 3 else snap.maxAttempts;
    if snap.optedOut || snap.attempts >= limit then
      raised == !c.start && rows' == rows && it' == if c.start then it.(status := ItemSkipped) else it
    else if !c.start then raised && rows' == rows && it' == it
    else
      && (raised <==> !(c.insert && c.mark) && n >= limit && !c.handle)
      && it'.attempts == n && it'.key == it.key && it'.tenant == it.tenant && it'.optedOut == it.optedOut
      && it'.status == (if c.insert && c.mark then ItemSent else if n >= limit && c.handle then ItemFailed
                        else it.status)
      && (if !c.insert || HasKey(rows, snap.tenant, snap.key + ":attempt:" + Decimal(n)) then rows' == rows
          else
            && |rows'| == |rows| + 1 && rows'[..|rows|] == rows
            && var row := rows'[|rows|];
               && row.tenant == snap.tenant && row.key == snap.key + ":attempt:" + Decimal(n)
               && row.provider == "chatwoot"
               && row.status.Pending? && row.retry == 0 && row.scheduledAt == now)
  }

  lemma PromoteExactly(clock: int, p: Sched, c: Commits)
    requires p.s.Promoting? && |p.s.queue| > 0 && p.s.queue[0].id < |p.items|
    requires p.items[p.s.queue[0].id].attempts == p.s.queue[0].attempts
    ensures var p' := Promote(clock, p, c);
            var id := p.s.queue[0].id;
            && |p'.items| == |p.items| && (forall i :: 0 <= i < |p.items| && i != id ==> p'.items[i] == p.items[i])
            && ItemBecomes(p.items[id], p'.items[id], p.rows, p'.rows, p.s.queue[0], c, clock, p'.s.Waiting?)
  {
    PromoteUnfolds(clock, p, c);
  }

  /** What a fault-free promotion leaves of an item. */
  predicate Delivered(before: Item, after: Item, rows: Outbox, snap: ItemSnap) {
    if Skips(snap) then after == before.(status := ItemSkipped)
    else after == before.(status := ItemSent, attempts := before.attempts + 1)
         && HasKey(rows, after.tenant, AttemptKey(after.key, after.attempts))
  }

  lemma PromoteDelivers(clock: int, p: Sched, c: Commits)
    requires FollowInv(p) && p.s.Promoting? && |p.s.queue| > 0 && NoFault(c)
    ensures var p' := Promote(clock, p, c);
            var id := p.s.queue[0].id;
            && p'.s == Promoting(p.s.queue[1..]) && |p'.items| == |p.items| && id < |p.items|
            && Delivered(p.items[id], p'.items[id], p'.rows, p.s.queue[0])
            && (forall i :: 0 <= i < |p.items| && i != id ==> p'.items[i] == p.items[i])
            && (p'.rows == p.rows || p'.rows
                == Enqueue(p.rows, AttemptRow(p.s.queue[0], p.s.queue[0].attempts + 1, clock)))
  {
    PromoteUnfolds(clock, p, c);
    var snap := p.s.queue[0];
    assert SameItem(p.items, snap) && p.items[snap.id].attempts == snap.attempts;
    if !Skips(snap) {
      EnqueueHasKey(p.rows, AttemptRow(snap, snap.attempts + 1, clock));
    }
  }

  lemma EnqueueKeepsKeys(rows: Outbox, row: OutboxRow, tenant: string, key: string)
    requires HasKey(rows, tenant, key)
    ensures HasKey(Enqueue(rows, row), tenant, key)
  {
    var i :| 0 <= i < |rows| && rows[i].tenant == tenant && rows[i].key == key;
    assert Enqueue(rows, row)[i] == rows[i];
  }

  ghost predicate KeysKept(rows: Outbox, rows': Outbox) {
    forall tenant, key :: HasKey(rows, tenant, key) ==> HasKey(rows', tenant, key)
  }

  predicate QueuedIn(q: seq<ItemSnap>, i: nat) {
    exists a :: 0 <= a < |q| && q[a].id == i
  }

  /** Every queued item delivered, no other item touched. */
  predicate BatchDone(items: Queue, p': Sched, q: seq<ItemSnap>) {
    && |p'.items| == |items|
    && (forall a :: 0 <= a < |q| ==> q[a].id < |items| && Delivered(items[q[a].id], p'.items[q[a].id], p'.rows, q[a]))
    && (forall i :: 0 <= i < |items| && !QueuedIn(q, i) ==> p'.items[i] == items[i])
  }

  lemma BatchStep(items: Queue, m: Sched, p': Sched, q: seq<ItemSnap>)
    requires |q| > 0 && |m.items| == |items| && q[0].id < |items|
    requires Delivered(items[q[0].id], m.items[q[0].id], m.rows, q[0])
    requires forall i :: 0 <= i < |items| && i != q[0].id ==> m.items[i] == items[i]
    requires forall a :: 0 < a < |q| ==> q[a].id != q[0].id
    requires BatchDone(m.items, p', q[1..]) && KeysKept(m.rows, p'.rows)
    ensures BatchDone(items, p', q)
  {
    var tail := q[1..];
    assert forall a :: 0 <= a < |tail| ==> tail[a] == q[a + 1];
    assert !QueuedIn(tail, q[0].id);
    forall a | 0 <= a < |q|
      ensures q[a].id < |items| && Delivered(items[q[a].id], p'.items[q[a].id], p'.rows, q[a])
    {
      if a > 0 {
        assert tail[a - 1] == q[a];
      }
    }
    forall i | 0 <= i < |items| && !QueuedIn(q, i)
      ensures p'.items[i] == items[i]
    {
      assert q[0].id != i && !QueuedIn(tail, i);
    }
  }

  lemma PromoteKeepsKeys(clock: int, p: Sched, c: Commits)
    requires FollowInv(p) && p.s.Promoting? && |p.s.queue| > 0 && NoFault(c)
    ensures KeysKept(p.rows, Promote(clock, p, c).rows)
  {
    PromoteDelivers(clock, p, c);
    forall tenant, key | HasKey(p.rows, tenant, key)
      ensures HasKey(Promote(clock, p, c).rows, tenant, key)
    {
      EnqueueKeepsKeys(p.rows, AttemptRow(p.s.queue[0], p.s.queue[0].attempts + 1, clock), tenant, key);
    }
  }

  /** A fault-free batch skips or sends every item it fetched: one more attempt each, each
    * with its outbox row, and no other item touched. */
  lemma {:induction false} PromoteAllDelivers(clock: int, p: Sched, commits: nat -> Commits, k: nat)
    requires FollowInv(p) && p.s.Promoting? && forall j :: NoFault(commits(j))
    ensures var p' := PromoteAll(clock, p, commits, k);
            BatchDone(p.items, p', p.s.queue) && KeysKept(p.rows, p'.rows)
    decreases |p.s.queue|
  {
    if |p.s.queue| > 0 {
      var m := Promote(clock, p, commits(k));
      PromoteDelivers(clock, p, commits(k));
      PromoteKeepsKeys(clock, p, commits(k));
      PromoteKeepsFollow(clock, p, commits(k));
      PromoteAllDelivers(clock, m, commits, k + 1);
      BatchStep(p.items, m, PromoteAll(clock, m, commits, k + 1), p.s.queue);
    }
  }

  /** A pending item of this conversation. */
  predicate Concerns(it: Item, tenant: string, conversation: string) {
    it.tenant == tenant && it.conversation == conversation && it.status.ItemPending?
  }

  function Matches(items: Queue, tenant: string, conversation: string): set<nat> {
    set i: nat | i < |items| && Concerns(items[i], tenant, conversation)
  }

  class FollowUpRepository {
    var items: Queue

    constructor ()
      ensures items == []
    {
      items := [];
    }

    method EnqueueRaw(item: Item)
      modifies this
      ensures (exists i :: 0 <= i < |old(items)| && old(items)[i].key == item.key) ==> items == old(items)
      ensures (forall i :: 0 <= i < |old(items)| ==> old(items)[i].key != item.key) ==> items == old(items) + [item]
      ensures UniqueItemKeys(old(items)) ==> UniqueItemKeys(items)
    {
      items := EnqueueItem(items, item);
    }

    /** ORDER BY trigger_at LIMIT limit over the due items. */
    method FetchDue(now: int, limit: nat) returns (pick: seq<nat>)
      ensures IsDueFetch(items, now, limit, pick)
      ensures |pick| <= limit && forall a, b :: 0 <= a < b < |pick| ==> pick[a] != pick[b]
      ensures forall a :: 0 <= a < |pick| ==> pick[a] < |items|
      ensures forall a, b :: 0 <= a < b < |pick| ==> items[pick[a]].triggerAt <= items[pick[b]].triggerAt
      ensures forall a :: 0 <= a < |pick| ==> items[pick[a]].status.ItemPending? && items[pick[a]].triggerAt <= now
      ensures forall i ::
                0 <= i < |items| && items[i].status.ItemPending? && items[i].triggerAt <= now && i !in pick ==>
                  |pick| == limit && forall a :: 0 <= a < |pick| ==> items[pick[a]].triggerAt <= items[i].triggerAt
    {
      var table := items;
      pick := Select(|table|, (i: nat) => i < |table| && ItemDue(table[i], now),
                     (i: nat) => if i < |table| then table[i].triggerAt else 0, limit);
    }

    /** mark_sent, mark_skipped and mark_failed: no later fetch, at any time, returns the item;
      * its attempts, limit and opt-out stay, and every other item is untouched. */
    method Mark(id: nat, st: ItemStatus)
      requires !st.ItemPending?
      modifies this
      ensures items == SetStatus(old(items), id, st)
      ensures |items| == |old(items)| && forall i :: 0 <= i < |items| && i != id ==> items[i] == old(items)[i]
      ensures id < |items| ==> items[id].status == st && items[id].attempts == old(items)[id].attempts
                               && items[id].maxAttempts == old(items)[id].maxAttempts
                               && items[id].optedOut == old(items)[id].optedOut
      ensures id < |items| ==> forall at, limit, pick :: IsDueFetch(items, at, limit, pick) ==> id !in pick
    {
      items := SetStatus(items, id, st);
    }

    /** One more attempt of this item and of no other; whether and when it is due stays. */
    method Increment(id: nat) returns (n: nat)
      modifies this
      ensures items == IncrementAttempt(old(items), id)
      ensures id < |old(items)| ==> n == old(items)[id].attempts + 1
      ensures id >= |old(items)| ==> n == 0 && items == old(items)
      ensures |items| == |old(items)| && forall i :: 0 <= i < |items| && i != id ==> items[i] == old(items)[i]
      ensures forall i, at :: 0 <= i < |items| ==> ItemDue(items[i], at) == ItemDue(old(items)[i], at)
    {
      items := IncrementAttempt(items, id);
      n := if id < |items| then items[id].attempts else 0;
    }

    /** From now on every pending item of the conversation is opted out; how many there are is
      * returned, all other items are untouched and no item becomes or ceases to be due. */
    method MarkOptedOut(conversation: string, tenant: string) returns (count: nat)
      modifies this
      ensures items == OptOutAll(old(items), tenant, conversation)
      ensures forall i :: 0 <= i < |items| && Concerns(items[i], tenant, conversation) ==> items[i].optedOut
      ensures forall i :: 0 <= i < |items| && !Concerns(items[i], tenant, conversation) ==> items[i] == old(items)[i]
      ensures forall i, at :: 0 <= i < |items| ==> ItemDue(items[i], at) == ItemDue(old(items)[i], at)
      ensures count == |Matches(items, tenant, conversation)|
              && Matches(items, tenant, conversation) == Matches(old(items), tenant, conversation)
    {
      items := OptOutAll(items, tenant, conversation);
      count := |Matches(items, tenant, conversation)|;
      assert forall i :: 0 <= i < |items| ==>
             Concerns(items[i], tenant, conversation) == Concerns(old(items)[i], tenant, conversation);
    }
  }

  class FollowUpSchedulerWorker {
    const queue: FollowUpRepository
    const outbox: OutboxDrainer.OutboxRepository

    constructor (queue: FollowUpRepository, outbox: OutboxDrainer.OutboxRepository)
      ensures this.queue == queue && this.outbox == outbox
    {
      this.queue, this.outbox := queue, outbox;
    }

    /** raised: an exception escapes and ends the batch. */
    method TakeSteps(snap: ItemSnap, c: Commits, now: int, ghost tail: seq<ItemSnap>) returns (raised: bool)
      modifies queue, outbox
      ensures Promote(now, Sched(old(queue.items), old(outbox.rows), Promoting([snap] + tail)), c)
              == Sched(queue.items, outbox.rows, if raised then Waiting else Promoting(tail))
    {
      assert ([snap] + tail)[1..] == tail;
      PromoteUnfolds(now, Sched(queue.items, outbox.rows, Promoting([snap] + tail)), c);
      if Skips(snap) {
        if c.start {
          queue.Mark(snap.id, ItemSkipped);
        }
        return !c.start;
      }
      if !c.start {
        return true;
      }
      var n := queue.Increment(snap.id);
      if c.insert {
        outbox.rows := Enqueue(outbox.rows, AttemptRow(snap, n, now));
        if c.mark {
          queue.Mark(snap.id, ItemSent);
          return false;
        }
      }
      if n >= EffectiveMax(snap.maxAttempts) {
        if c.handle {
          queue.Mark(snap.id, ItemFailed);
        }
        return !c.handle;
      }
      raised := false;
    }

    /** _promote_item: what becomes of the item and the outbox, for any failing commits. */
    method PromoteItem(snap: ItemSnap, c: Commits, now: int, ghost tail: seq<ItemSnap>) returns (raised: bool)
      modifies queue, outbox
      ensures Promote(now, Sched(old(queue.items), old(outbox.rows), Promoting([snap] + tail)), c)
              == Sched(queue.items, outbox.rows, if raised then Waiting else Promoting(tail))
      ensures snap.id < |old(queue.items)| && old(queue.items)[snap.id].attempts == snap.attempts ==>
                && |queue.items| == |old(queue.items)|
                && ItemBecomes(old(queue.items)[snap.id], queue.items[snap.id], old(outbox.rows), outbox.rows, snap, c,
                               now, raised)
                && forall i :: 0 <= i < |queue.items| && i != snap.id ==> queue.items[i] == old(queue.items)[i]
    {
      ghost var p := Sched(queue.items, outbox.rows, Promoting([snap] + tail));
      if snap.id < |queue.items| && queue.items[snap.id].attempts == snap.attempts {
        PromoteExactly(now, p, c);
      }
      raised := TakeSteps(snap, c, now, tail);
    }

    method PromoteBatch(batch: seq<ItemSnap>, commits: nat -> Commits, now: int)
      requires FollowInv(Sched(queue.items, outbox.rows, Promoting(batch)))
      modifies queue, outbox
      ensures FollowInv(Sched(queue.items, outbox.rows, Waiting))
      ensures var p := PromoteAll(now, Sched(old(queue.items), old(outbox.rows), Promoting(batch)), commits, 0);
              queue.items == p.items && outbox.rows == p.rows
    {
      ghost var start := Sched(queue.items, outbox.rows, Promoting(batch));
      for i := 0 to |batch|
        invariant FollowInv(Sched(queue.items, outbox.rows, Promoting(batch[i..])))
        invariant PromoteAll(now, Sched(queue.items, outbox.rows, Promoting(batch[i..])), commits, i)
                  == PromoteAll(now, start, commits, 0)
      {
        assert batch[i..] == [batch[i]] + batch[i + 1..];
        PromoteKeepsFollow(now, Sched(queue.items, outbox.rows, Promoting(batch[i..])), commits(i));
        var raised := PromoteItem(batch[i], commits(i), now, batch[i + 1..]);
        if raised {
          return;
        }
      }
    }

    /** One poll: the invariant is kept whatever commits fail; if none does, every item that
      * was fetched is skipped or sent with its outbox row, and no other item is touched. */
    method ProcessBatch(commits: nat -> Commits, now: int, limit: nat) returns (batch: seq<ItemSnap>)
      requires FollowInv(Sched(queue.items, outbox.rows, Waiting))
      modifies queue, outbox
      ensures FollowInv(Sched(queue.items, outbox.rows, Waiting))
      ensures exists pick ::
                IsDueFetch(old(queue.items), now, limit, pick) && batch == ItemSnaps(old(queue.items), pick)
      ensures (forall j :: NoFault(commits(j))) ==>
              BatchDone(old(queue.items), Sched(queue.items, outbox.rows, Waiting), batch)
      ensures |batch| == 0 && limit > 0 ==> forall i :: 0 <= i < |old(queue.items)| ==>
              !ItemDue(old(queue.items)[i], now)
    {
      var pick := queue.FetchDue(now, limit);
      batch := ItemSnaps(queue.items, pick);
      ghost var start := Sched(queue.items, outbox.rows, Promoting(batch));
      FetchDueKeeps(limit, now, Sched(queue.items, outbox.rows, Waiting), pick, now);
      if forall j :: NoFault(commits(j)) {
        PromoteAllDelivers(now, start, commits, 0);
      }
      PromoteBatch(batch, commits, now);
    }
  }
}
