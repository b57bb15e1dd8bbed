/** What every run of the delivery pipeline guarantees. */
module DeliveryResults {
  import opened Basics
  import opened Keys
  import opened DeliveryTables
  import opened DrainerProtocol
  import opened Delivery

  // ------------------------------------------------------------- follow-up crash safety

  predicate IsAttemptOf(row: OutboxRow, item: nat) {
    row.origin.FromItem? && row.origin.item == item
  }

  /** Outbox rows an item has produced. */
  function AttemptRows(rows: Outbox, item: nat): nat {
    if |rows| == 0 then 0
    else AttemptRows(rows[..|rows| - 1], item) + if IsAttemptOf(rows[|rows| - 1], item) then 1 else 0
  }

  function AttemptNumbers(rows: Outbox, item: nat): set<nat> {
    set r | 0 <= r < |rows| && IsAttemptOf(rows[r], item) :: rows[r].origin.n
  }

  predicate DistinctAttempts(rows: Outbox, item: nat) {
    forall r, q :: 0 <= r < q < |rows| && IsAttemptOf(rows[r], item) && IsAttemptOf(rows[q], item) ==>
      rows[r].origin.n != rows[q].origin.n
  }

  lemma NumbersGrow(rows: Outbox, item: nat)
    requires |rows| > 0
    ensures var init, last := rows[..|rows| - 1], rows[|rows| - 1];
            && AttemptNumbers(rows, item)
               == AttemptNumbers(init, item) + (if IsAttemptOf(last, item) then {last.origin.n} else {})
            && (DistinctAttempts(rows, item) && IsAttemptOf(last, item) ==>
                last.origin.n !in AttemptNumbers(init, item))
  {
    var init := rows[..|rows| - 1];
    assert forall r :: 0 <= r < |init| ==> init[r] == rows[r];
  }

  lemma {:induction false} CountIsCardinality(rows: Outbox, item: nat)
    requires DistinctAttempts(rows, item)
    ensures AttemptRows(rows, item) == |AttemptNumbers(rows, item)|
  {
    if |rows| > 0 {
      CountIsCardinality(rows[..|rows| - 1], item);
      NumbersGrow(rows, item);
    }
  }

  lemma {:induction false} SubsetOfRange(ns: set<nat>, bound: nat)
    requires forall n :: n in ns ==> 1 <= n <= bound
    ensures |ns| <= bound
  {
    if bound == 0 {
      assert ns == {};
    } else {
      SubsetOfRange(ns - {bound}, bound - 1);
      assert ns <= (ns - {bound}) + {bound};
    }
  }

  lemma AttemptsAreDistinct(p: Sched, item: nat)
    requires FollowInv(p)
    ensures DistinctAttempts(p.rows, item)
  {
    forall r, q | 0 <= r < q < |p.rows| && IsAttemptOf(p.rows[r], item) && IsAttemptOf(p.rows[q], item)
      ensures p.rows[r].origin.n != p.rows[q].origin.n
    {
      assert RowOfItem(p.items, p.rows[r]) && RowOfItem(p.items, p.rows[q]);
    }
  }

  lemma ItemLimits(p: Sched, item: nat)
    requires FollowInv(p) && item < |p.items|
    ensures var it := p.items[item];
            && it.attempts <= (if it.maxAttempts == 0 then 3 else if it.maxAttempts > 0 then it.maxAttempts else 0)
            && (it.status.ItemFailed? ==> it.attempts == if it.maxAttempts == 0 then 3 else it.maxAttempts)
            && (it.status.ItemSkipped? ==>
                  it.optedOut || it.attempts >= if it.maxAttempts == 0 then 3 else it.maxAttempts)
            && (it.status.ItemSent? ==> it.attempts >= 1 && HasKey(p.rows, it.tenant, AttemptKey(it.key, it.attempts)))
  {
    assert ItemOk(p.rows, p.items[item]);
  }

  lemma ItemRows(p: Sched, item: nat)
    requires FollowInv(p) && item < |p.items|
    ensures AttemptRows(p.rows, item) <= p.items[item].attempts
    ensures forall r, q :: 0 <= r < q < |p.rows| && IsAttemptOf(p.rows[r], item) && IsAttemptOf(p.rows[q], item) ==>
              p.rows[r].key != p.rows[q].key
  {
    AttemptsAreDistinct(p, item);
    CountIsCardinality(p.rows, item);
    assert forall r :: 0 <= r < |p.rows| ==> RowOfItem(p.items, p.rows[r]);
    SubsetOfRange(AttemptNumbers(p.rows, item), p.items[item].attempts);
    forall r, q | 0 <= r < q < |p.rows| && IsAttemptOf(p.rows[r], item) && IsAttemptOf(p.rows[q], item)
      ensures p.rows[r].key != p.rows[q].key
    {
      var key := p.items[item].key;
      AttemptKeyInjective(key, p.rows[r].origin.n, key, p.rows[q].origin.n);
    }
  }

  /** In every run, whatever commits fail and wherever the scheduler crashes: an item is
    * attempted at most max_attempts times (three if that is 0, never if it is negative), fails
    * only there and is skipped only there or opted out; its outbox rows carry pairwise different
    * keys and are no more than its attempts, and an item marked sent has its last attempt
    * in the outbox. */
  lemma FollowUpSafety(cfg: Config, clock: int, steps: seq<Step>, item: nat)
    requires item < |Exec(cfg, Begin(clock), steps).items|
    ensures var w := Exec(cfg, Begin(clock), steps);
            var it := w.items[item];
            && it.attempts <= (if it.maxAttempts == 0 then 3 else if it.maxAttempts > 0 then it.maxAttempts else 0)
            && (it.status.ItemFailed? ==> it.attempts == if it.maxAttempts == 0 then 3 else it.maxAttempts)
            && (it.status.ItemSkipped? ==>
                  it.optedOut || it.attempts >= if it.maxAttempts == 0 then 3 else it.maxAttempts)
            && (it.status.ItemSent? ==> it.attempts >= 1 && HasKey(w.rows, it.tenant, AttemptKey(it.key, it.attempts)))
            && AttemptRows(w.rows, item) <= it.attempts
            && (forall r, q ::
                  0 <= r < q < |w.rows| && IsAttemptOf(w.rows[r], item) && IsAttemptOf(w.rows[q], item) ==>
                    w.rows[r].key != w.rows[q].key)
  {
    var w := Exec(cfg, Begin(clock), steps);
    FollowInRun(cfg, clock, steps);
    ItemLimits(Sched(w.items, w.rows, w.s), item);
    ItemRows(Sched(w.items, w.rows, w.s), item);
  }

  lemma FollowInRun(cfg: Config, clock: int, steps: seq<Step>)
    ensures var w := Exec(cfg, Begin(clock), steps);
            FollowInv(Sched(w.items, w.rows, w.s))
  {
    ExecKeepsInv(cfg, clock, steps);
  }

  // ------------------------------------------------------------ what steps never undo

  predicate ItemKept(a: Item, b: Item) {
    && a.key == b.key && a.tenant == b.tenant && a.conversation == b.conversation && a.maxAttempts == b.maxAttempts
    && a.attempts <= b.attempts && (a.optedOut ==> b.optedOut)
    && (!a.status.ItemPending? ==> b.status == a.status && b.attempts == a.attempts)
  }

  predicate ItemsKept(items: Queue, items': Queue) {
    |items| <= |items'| && forall i :: 0 <= i < |items| ==> ItemKept(items[i], items'[i])
  }

  ghost predicate Extends(w: World, w': World) {
    && |w.rows| <= |w'.rows| && RowsKept(w.rows, w'.rows[..|w.rows|])
    && ItemsKept(w.items, w'.items)
  }

  lemma AppendExtends(rows: Outbox, row: OutboxRow)
    ensures |rows| <= |Enqueue(rows, row)| && RowsKept(rows, Enqueue(rows, row)[..|rows|])
  {
    assert Enqueue(rows, row)[..|rows|] == rows;
  }

  lemma StartKeepsItems(p: Sched, commit: bool)
    requires FollowInv(p) && p.s.Promoting? && |p.s.queue| > 0
    ensures ItemsKept(p.items, ApplyStart(p, commit).items) && ApplyStart(p, commit).rows == p.rows
  {
    assert SameItem(p.items, p.s.queue[0]);
  }

  lemma ScheduleKeepsItems(batch: nat, clock: int, p: Sched, ss: SStep)
    requires FollowInv(p)
    ensures ItemsKept(p.items, ApplyS(batch, clock, p, ss).items)
    ensures !ss.Insert? ==> ApplyS(batch, clock, p, ss).rows == p.rows
  {
    if ss.Start? && p.s.Promoting? && |p.s.queue| > 0 {
      StartKeepsItems(p, ss.commit);
    }
  }

  lemma ScheduleExtends(cfg: Config, w: World, ss: SStep)
    requires Inv(cfg, w)
    ensures Extends(w, Apply(cfg, w, Schedule(ss)))
  {
    assert w.rows[..|w.rows|] == w.rows;
    ScheduleKeepsItems(cfg.batch, w.clock, Sched(w.items, w.rows, w.s), ss);
    if ss.Insert? && w.s.Inserting? {
      AppendExtends(w.rows, AttemptRow(w.s.snap, w.s.n, w.clock));
    }
  }

  lemma StepExtends(cfg: Config, w: World, step: Step)
    requires Inv(cfg, w)
    ensures Extends(w, Apply(cfg, w, step))
  {
    assert w.rows[..|w.rows|] == w.rows;
    match step
    case Drain(ds) =>
      DStepFrame(cfg, w.clock, Pipe(w.rows, w.d), ds);
      var rows' := Apply(cfg, w, step).rows;
      assert rows'[..|w.rows|] == rows';
    case Schedule(ss) =>
      ScheduleExtends(cfg, w, ss);
    case GraphCommand(tenant, key, uuid, provider, content) =>
      AppendExtends(w.rows, NewCommand(tenant, key, Uuid(uuid), provider, content, FromGraph, w.clock));
    case _ =>
  }

  lemma ExtendsTransitive(a: World, b: World, c: World)
    requires Extends(a, b) && Extends(b, c)
    ensures Extends(a, c)
  {
    forall i | 0 <= i < |a.rows|
      ensures SameCommand(a.rows[i], c.rows[i]) && (!a.rows[i].status.Pending? ==> c.rows[i] == a.rows[i])
    {
      assert b.rows[..|a.rows|][i] == b.rows[i] && c.rows[..|b.rows|][i] == c.rows[i];
    }
    assert forall i :: 0 <= i < |a.items| ==> ItemKept(a.items[i], b.items[i]) && ItemKept(b.items[i], c.items[i]);
  }

  lemma {:induction false} RunExtends(cfg: Config, clock: int, before: seq<Step>, after: seq<Step>)
    ensures Extends(Exec(cfg, Begin(clock), before), Exec(cfg, Begin(clock), before + after))
  {
    var w := Exec(cfg, Begin(clock), before);
    if |after| == 0 {
      assert before + after == before;
      assert w.rows[..|w.rows|] == w.rows;
    } else {
      var shorter := before + after[..|after| - 1];
      assert (before + after)[..|before + after| - 1] == shorter;
      RunExtends(cfg, clock, before, after[..|after| - 1]);
      ExecKeepsInv(cfg, clock, shorter);
      var m := Exec(cfg, Begin(clock), shorter);
      StepExtends(cfg, m, after[|after| - 1]);
      ExtendsTransitive(w, m, Exec(cfg, Begin(clock), before + after));
    }
  }

  /** Sent and dead-lettered rows, and sent, skipped and failed items, never change again. */
  lemma TerminalIsAbsorbing(cfg: Config, clock: int, before: seq<Step>, after: seq<Step>, row: nat, item: nat)
    ensures var w := Exec(cfg, Begin(clock), before);
            var w' := Exec(cfg, Begin(clock), before + after);
            && (row < |w.rows| && !w.rows[row].status.Pending? ==> row < |w'.rows| && w'.rows[row] == w.rows[row])
            && (item < |w.items| && !w.items[item].status.ItemPending? ==>
                  item < |w'.items| && w'.items[item].status == w.items[item].status
                    && w'.items[item].attempts == w.items[item].attempts)
  {
    RunExtends(cfg, clock, before, after);
    var w, w' := Exec(cfg, Begin(clock), before), Exec(cfg, Begin(clock), before + after);
    assert row < |w.rows| ==> w'.rows[..|w.rows|][row] == w'.rows[row];
    assert item < |w.items| ==> ItemKept(w.items[item], w'.items[item]);
  }

  // ---------------------------------------------------------------- outbox accounting

  lemma RowOkInRun(cfg: Config, clock: int, steps: seq<Step>, row: nat)
    requires row < |Exec(cfg, Begin(clock), steps).rows|
    ensures var w := Exec(cfg, Begin(clock), steps);
            RowOk(cfg, w.clock, w.rows[row], Open(w.d, row))
  {
    ExecKeepsInv(cfg, clock, steps);
  }

  /** Adapter executions of a command are at most maxRetries plus its lost commits, and
    * its stored retry count stays below maxRetries (or is 0). */
  lemma OutboxAccounting(cfg: Config, clock: int, steps: seq<Step>, row: nat)
    requires row < |Exec(cfg, Begin(clock), steps).rows|
    ensures var r := Exec(cfg, Begin(clock), steps).rows[row];
            && |r.log| <= cfg.maxRetries + r.lost
            && (r.retry < cfg.maxRetries || r.retry == 0)
            && TotalPosts(r.log) <= (cfg.maxRetries + r.lost) * cfg.mcpRetries
  {
    var w := Exec(cfg, Begin(clock), steps);
    RowOkInRun(cfg, clock, steps, row);
    RowPosts(cfg, w.clock, w.rows[row], Open(w.d, row));
  }

  lemma BackoffOfRow(cfg: Config, clock: int, r: OutboxRow, open: bool, k: nat)
    requires RowOk(cfg, clock, r, open)
    ensures k + 1 < |r.log| && r.log[k].failed ==> r.log[k + 1].at - r.log[k].at >= 30 * Pow2(r.log[k].retry)
    ensures r.lost == 0 && |r.log| > 0 ==> Last(r.log).at - r.log[0].at >= 30 * (Pow2(|r.log| - 1) - 1)
  {
    if k + 1 < |r.log| {
      assert GapAt(r.log, k);
    }
    if r.lost == 0 && |r.log| > 0 {
      BackoffSpan(cfg, clock, r, open);
    }
  }

  /** Executions separated by a committed failure at retry count r are at least 30 * 2^r
    * apart; with no lost commit the whole history of n executions spans at least
    * 30 * (2^(n-1) - 1). */
  lemma BackoffRespected(cfg: Config, clock: int, steps: seq<Step>, row: nat, k: nat)
    requires row < |Exec(cfg, Begin(clock), steps).rows|
    ensures var r := Exec(cfg, Begin(clock), steps).rows[row];
            && (k + 1 < |r.log| && r.log[k].failed ==> r.log[k + 1].at - r.log[k].at >= 30 * Pow2(r.log[k].retry))
            && (r.lost == 0 && |r.log| > 0 ==> Last(r.log).at - r.log[0].at >= 30 * (Pow2(|r.log| - 1) - 1))
  {
    var w := Exec(cfg, Begin(clock), steps);
    RowOkInRun(cfg, clock, steps, row);
    BackoffOfRow(cfg, w.clock, w.rows[row], Open(w.d, row), k);
  }

  // ------------------------------------------------------------------------- opt-out

  /** The scheduler holds no stale note of an opted-out item. */
  predicate Silenced(w: World, item: nat) {
    && item < |w.items| && w.items[item].optedOut
    && (forall a :: 0 <= a < |ItemsQueued(w.s)| ==> ItemsQueued(w.s)[a].id == item ==> ItemsQueued(w.s)[a].optedOut)
    && (w.s.Inserting? || w.s.Marking? || w.s.Handling? ==> w.s.snap.id != item)
  }

  predicate NoNewAttempts(rows: Outbox, rows': Outbox, item: nat) {
    forall r :: |rows| <= r < |rows'| ==> !IsAttemptOf(rows'[r], item)
  }

  lemma SilencedSchedule(cfg: Config, w: World, ss: SStep, item: nat)
    requires Inv(cfg, w) && Silenced(w, item)
    ensures var w' := Apply(cfg, w, Schedule(ss));
            Silenced(w', item) && NoNewAttempts(w.rows, w'.rows, item)
  {
    if ss.Start? && w.s.Promoting? && |w.s.queue| > 0 {
      SilencedStart(Sched(w.items, w.rows, w.s), ss.commit, item);
    }
  }

  lemma SilencedStart(p: Sched, commit: bool, item: nat)
    requires p.s.Promoting? && |p.s.queue| > 0 && FollowInv(p)
    requires item < |p.items| && p.items[item].optedOut
    requires forall a :: 0 <= a < |p.s.queue| ==> p.s.queue[a].id == item ==> p.s.queue[a].optedOut
    ensures var p' := ApplyStart(p, commit);
            && p'.rows == p.rows && item < |p'.items| && p'.items[item].optedOut && !p'.s.Marking? && !p'.s.Handling?
            && (forall a :: 0 <= a < |ItemsQueued(p'.s)| ==> ItemsQueued(p'.s)[a].id == item ==>
                ItemsQueued(p'.s)[a].optedOut)
            && (p'.s.Inserting? ==> p'.s.snap.id != item)
  {
    var tail := p.s.queue[1..];
    assert forall a :: 0 <= a < |tail| ==> tail[a] == p.s.queue[a + 1];
    assert SameItem(p.items, p.s.queue[0]);
  }

  lemma SilencedStep(cfg: Config, w: World, step: Step, item: nat)
    requires Inv(cfg, w) && Silenced(w, item)
    ensures Silenced(Apply(cfg, w, step), item)
    ensures NoNewAttempts(w.rows, Apply(cfg, w, step).rows, item)
  {
    match step
    case Schedule(ss) =>
      SilencedSchedule(cfg, w, ss, item);
    case Drain(ds) =>
      DStepFrame(cfg, w.clock, Pipe(w.rows, w.d), ds);
    case _ =>
  }

  lemma {:induction false} SilencedRun(cfg: Config, clock: int, before: seq<Step>, after: seq<Step>, item: nat)
    requires Silenced(Exec(cfg, Begin(clock), before), item)
    ensures var w, w' := Exec(cfg, Begin(clock), before), Exec(cfg, Begin(clock), before + after);
            Silenced(w', item) && |w.rows| <= |w'.rows| && NoNewAttempts(w.rows, w'.rows, item)
  {
    var w := Exec(cfg, Begin(clock), before);
    if |after| == 0 {
      assert before + after == before;
    } else {
      var shorter := before + after[..|after| - 1];
      assert (before + after)[..|before + after| - 1] == shorter;
      SilencedRun(cfg, clock, before, after[..|after| - 1], item);
      ExecKeepsInv(cfg, clock, shorter);
      var m := Exec(cfg, Begin(clock), shorter);
      var step := after[|after| - 1];
      SilencedStep(cfg, m, step, item);
      StepExtends(cfg, m, step);
      var w' := Apply(cfg, m, step);
      forall r | |w.rows| <= r < |w'.rows|
        ensures !IsAttemptOf(w'.rows[r], item)
      {
        if r < |m.rows| {
          assert w'.rows[..|m.rows|][r] == w'.rows[r];
          assert SameCommand(m.rows[r], w'.rows[r]);
        }
      }
    }
  }

  /** An item that is opted out while the scheduler is between batches gains no further
    * outbox row, ever. */
  lemma OptedOutGainsNoRow(cfg: Config, clock: int, before: seq<Step>, after: seq<Step>, item: nat)
    requires var w := Exec(cfg, Begin(clock), before);
             AtRest(w.s) && item < |w.items| && w.items[item].optedOut
    ensures var w, w' := Exec(cfg, Begin(clock), before), Exec(cfg, Begin(clock), before + after);
            |w.rows| <= |w'.rows| && forall r :: |w.rows| <= r < |w'.rows| ==> !IsAttemptOf(w'.rows[r], item)
  {
    SilencedRun(cfg, clock, before, after, item);
  }

  /** Opting out is respected: once mark_opted_out has committed between two batches, no pending
    * item of that conversation gains an outbox row, ever. */
  lemma OptOutIsRespected(cfg: Config, clock: int, before: seq<Step>, tenant: string, conversation: string,
                          after: seq<Step>, item: nat)
    requires var w := Exec(cfg, Begin(clock), before);
             && AtRest(w.s) && item < |w.items| && w.items[item].status.ItemPending?
             && w.items[item].tenant == tenant && w.items[item].conversation == conversation
    ensures var w := Exec(cfg, Begin(clock), before);
            var w' := Exec(cfg, Begin(clock), before + [OptOut(tenant, conversation)] + after);
            |w.rows| <= |w'.rows| && forall r :: |w.rows| <= r < |w'.rows| ==> !IsAttemptOf(w'.rows[r], item)
  {
    ExecSnoc(cfg, Begin(clock), before, OptOut(tenant, conversation));
    OptedOutGainsNoRow(cfg, clock, before + [OptOut(tenant, conversation)], after, item);
  }

  // --------------------------------------------------------- end-to-end multiplicity

  /** Provider write POSTs, and lost status commits, of all rows an item has produced. */
  function ItemPosts(rows: Outbox, item: nat): nat {
    if |rows| == 0 then 0
    else
      var last := rows[|rows| - 1];
      ItemPosts(rows[..|rows| - 1], item) + if IsAttemptOf(last, item) then TotalPosts(last.log) else 0
  }

  function ItemLost(rows: Outbox, item: nat): nat {
    if |rows| == 0 then 0
    else ItemLost(rows[..|rows| - 1], item) + if IsAttemptOf(rows[|rows| - 1], item) then rows[|rows| - 1].lost else 0
  }

  predicate PostsBounded(cfg: Config, row: OutboxRow) {
    TotalPosts(row.log) <= (cfg.maxRetries + row.lost) * cfg.mcpRetries
  }

  predicate AllBounded(cfg: Config, rows: Outbox) {
    forall r :: 0 <= r < |rows| ==> PostsBounded(cfg, rows[r])
  }

  lemma {:induction false} PostsOfRows(cfg: Config, rows: Outbox, item: nat)
    requires AllBounded(cfg, rows)
    ensures ItemPosts(rows, item) <= (AttemptRows(rows, item) * cfg.maxRetries + ItemLost(rows, item)) * cfg.mcpRetries
  {
    if |rows| > 0 {
      var init, last := rows[..|rows| - 1], rows[|rows| - 1];
      PostsOfRows(cfg, init, item);
      assert PostsBounded(cfg, last);
      if IsAttemptOf(last, item) {
        SumOfProducts(AttemptRows(init, item), ItemLost(init, item), last.lost, cfg.maxRetries, cfg.mcpRetries);
      }
    }
  }

  lemma PostsInRun(cfg: Config, clock: int, steps: seq<Step>)
    ensures AllBounded(cfg, Exec(cfg, Begin(clock), steps).rows)
  {
    var rows := Exec(cfg, Begin(clock), steps).rows;
    forall r | 0 <= r < |rows|
      ensures PostsBounded(cfg, rows[r])
    {
      OutboxAccounting(cfg, clock, steps, r);
    }
  }

  lemma SumOfProducts(a: nat, lost: nat, more: nat, m: nat, r: nat)
    ensures (a * m + lost) * r + (m + more) * r == ((a + 1) * m + (lost + more)) * r
  {
    assert (a + 1) * m == a * m + m;
  }

  ghost function MaxAttempts(m: int): nat {
    if m == 0 then 3 else if m > 0 then m else 0
  }

  lemma AttemptsWithinCap(cfg: Config, clock: int, steps: seq<Step>, item: nat)
    requires item < |Exec(cfg, Begin(clock), steps).items|
    ensures var w := Exec(cfg, Begin(clock), steps);
            AttemptRows(w.rows, item) <= MaxAttempts(w.items[item].maxAttempts)
  {
    FollowUpSafety(cfg, clock, steps, item);
  }

  lemma PostsOfItem(cfg: Config, clock: int, steps: seq<Step>, item: nat)
    ensures var rows := Exec(cfg, Begin(clock), steps).rows;
            ItemPosts(rows, item) <= (AttemptRows(rows, item) * cfg.maxRetries + ItemLost(rows, item)) * cfg.mcpRetries
  {
    PostsInRun(cfg, clock, steps);
    PostsOfRows(cfg, Exec(cfg, Begin(clock), steps).rows, item);
  }

  /** One follow-up item causes at most A*M*R provider write POSTs in a run without lost
    * outbox commits, and each lost commit adds at most R: A its effective maximum, M the
    * outbox retries, R the adapter's.  Scheduler crashes and failed commits add nothing. */
  lemma EndToEndMultiplicity(cfg: Config, clock: int, steps: seq<Step>, item: nat)
    requires item < |Exec(cfg, Begin(clock), steps).items|
    ensures var w := Exec(cfg, Begin(clock), steps);
            var lost := ItemLost(w.rows, item);
            var m := w.items[item].maxAttempts;
            var a := if m == 0 then 3 else if m > 0 then m else 0;
            && ItemPosts(w.rows, item) <= (a * cfg.maxRetries + lost) * cfg.mcpRetries
            && (lost == 0 ==> ItemPosts(w.rows, item) <= a * cfg.maxRetries * cfg.mcpRetries)
  {
    var w := Exec(cfg, Begin(clock), steps);
    AttemptsWithinCap(cfg, clock, steps, item);
    PostsOfItem(cfg, clock, steps, item);
    ScaleBound(ItemPosts(w.rows, item), AttemptRows(w.rows, item), MaxAttempts(w.items[item].maxAttempts),
               cfg.maxRetries,
               ItemLost(w.rows, item), cfg.mcpRetries);
  }

  lemma ScaleBound(posts: nat, rows: nat, cap: nat, m: nat, lost: nat, r: nat)
    requires posts <= (rows * m + lost) * r && rows <= cap
    ensures posts <= (cap * m + lost) * r
    ensures lost == 0 ==> posts <= cap * m * r
  {
    MulMonotone(rows, cap, m);
    MulMonotone(rows * m + lost, cap * m + lost, r);
  }

  // ------------------------------------------------------- at most once is not promised

  function OneItem(m: int, attempts: nat): Queue {
    [Item("k", "t", "c", 0, ItemPending, attempts, m, false)]
  }

  /** Fetch the only item, count an attempt, write its row, crash. */
  function CrashedRound(): seq<Step> {
    [Schedule(FetchDue([0], 0)), Schedule(Start(true)), Schedule(Insert(true)), Schedule(SchedulerCrash)]
  }

  lemma CrashedRoundAddsARow(cfg: Config, before: seq<Step>, m: int, attempts: nat, rows: Outbox)
    requires cfg.batch > 0 && attempts < EffectiveMax(m)
    requires Exec(cfg, Begin(0), before) == World(0, OneItem(m, attempts), rows, Idle, Waiting)
    requires !HasKey(rows, "t", AttemptKey("k", attempts + 1))
    ensures Exec(cfg, Begin(0), before + CrashedRound())
            == World(0, OneItem(m, attempts + 1),
                     rows + [AttemptRow(ItemSnap(0, "k", "t", attempts, m, false), attempts + 1, 0)], Idle, Waiting)
  {
    var snap := ItemSnap(0, "k", "t", attempts, m, false);
    var s1 := before + [Schedule(FetchDue([0], 0))];
    var s2 := s1 + [Schedule(Start(true))];
    var s3 := s2 + [Schedule(Insert(true))];
    ExecSnoc(cfg, Begin(0), before, Schedule(FetchDue([0], 0)));
    ExecSnoc(cfg, Begin(0), s1, Schedule(Start(true)));
    ExecSnoc(cfg, Begin(0), s2, Schedule(Insert(true)));
    ExecSnoc(cfg, Begin(0), s3, Schedule(SchedulerCrash));
    assert before + CrashedRound() == s3 + [Schedule(SchedulerCrash)];
    var items := OneItem(m, attempts);
    assert IsDueFetch(items, 0, cfg.batch, [0]);
    assert ItemSnaps(items, [0]) == [snap];
    assert Exec(cfg, Begin(0), s1) == World(0, items, rows, Idle, Promoting([snap]));
    assert [snap][1..] == [];
    assert Exec(cfg, Begin(0), s2) == World(0, OneItem(m, attempts + 1), rows, Idle, Inserting(snap, attempts + 1, []));
  }

  lemma OneRowForOneItem(cfg: Config, m: int)
    requires cfg.batch > 0 && EffectiveMax(m) >= 1
    ensures Exec(cfg, Begin(0), [NewItem("k", "t", "c", 0, m, false)] + CrashedRound())
            == World(0, OneItem(m, 1), [AttemptRow(ItemSnap(0, "k", "t", 0, m, false), 1, 0)], Idle, Waiting)
  {
    var first := [NewItem("k", "t", "c", 0, m, false)];
    assert first == [] + first;
    ExecSnoc(cfg, Begin(0), [], first[0]);
    assert Exec(cfg, Begin(0), first) == World(0, OneItem(m, 0), [], Idle, Waiting);
    CrashedRoundAddsARow(cfg, first, m, 0, []);
  }

  /** Two crashes between the outbox write and the item's mark: two rows for one item. */
  lemma TwoRowsForOneItem(cfg: Config, m: int)
    requires cfg.batch > 0 && (m == 0 || m >= 2)
    ensures var w := Exec(cfg, Begin(0), [NewItem("k", "t", "c", 0, m, false)] + CrashedRound() + CrashedRound());
            |w.items| == 1 && w.items[0].maxAttempts == m && AttemptRows(w.rows, 0) == 2
  {
    OneRowForOneItem(cfg, m);
    AttemptKeyInjective("k", 1, "k", 2);
    var r1 := AttemptRow(ItemSnap(0, "k", "t", 0, m, false), 1, 0);
    var r2 := AttemptRow(ItemSnap(0, "k", "t", 1, m, false), 2, 0);
    CrashedRoundAddsARow(cfg, [NewItem("k", "t", "c", 0, m, false)] + CrashedRound(), m, 1, [r1]);
    CountTwo(r1, r2);
  }

  lemma CountTwo(a: OutboxRow, b: OutboxRow)
    requires IsAttemptOf(a, 0) && IsAttemptOf(b, 0)
    ensures AttemptRows([a] + [b], 0) == 2
  {
    assert ([a] + [b])[..1] == [a] && [a][..0] == [];
    assert AttemptRows([a], 0) == 1;
  }

  /** Every run gives every item with this limit at most one outbox row. */
  ghost predicate AtMostOnce(cfg: Config, m: int) {
    forall clock, steps: seq<Step>, item: nat ::
      var w := Exec(cfg, Begin(clock), steps);
      item < |w.items| && w.items[item].maxAttempts == m ==> AttemptRows(w.rows, item) <= 1
  }

  /** The outbox insert is idempotent per attempt, not per item: delivery is at most once
    * exactly for items whose limit is one, or negative so that they are never sent. */
  lemma AtMostOnceExactly(cfg: Config, m: int)
    requires cfg.batch > 0
    ensures AtMostOnce(cfg, m) <==> m == 1 || m < 0
  {
    if m == 1 || m < 0 {
      forall clock, steps: seq<Step>, item: nat |
        item < |Exec(cfg, Begin(clock), steps).items| && Exec(cfg, Begin(clock), steps).items[item].maxAttempts == m
        ensures AttemptRows(Exec(cfg, Begin(clock), steps).rows, item) <= 1
      {
        FollowUpSafety(cfg, clock, steps, item);
      }
    } else {
      TwoRowsForOneItem(cfg, m);
    }
  }
}
