/** The two tables of the delivery pipeline: provider_command_outbox and follow_up_queue.
  *
  * A table is the sequence of its rows in insertion order; rows are never deleted, so a
  * position is a primary key.  Each function is one SQL statement.
  */
module DeliveryTables {
  import opened Basics
  import McpRetry

  /** uuid4 ids are numbers; the scheduler's ids are an injective hash of key and attempt. */
  datatype CommandId = Uuid(n: nat) | FollowUpId(key: string, n: nat)

  datatype Status = Pending | Sent | DeadLettered

  /** Where a command comes from: attempt n of a follow-up item, or a graph node. */
  datatype Origin = FromGraph | FromItem(item: nat, n: nat)

  /** One execute_command call.  allowed: its tenant checks and capability resolution passed;
    * answers: what the provider answers to its POSTs, for as long as it makes any. */
  datatype AdapterCall = Chatwoot(allowed: bool, answers: nat -> McpRetry.Response) | Foreign(ok: bool)

  /** History, not a column: one adapter execution of the command.  ok: the adapter returned,
    * the command is delivered; failed: mark_failed_for_retry was committed for it. */
  datatype Attempt = Attempt(at: int, retry: nat, call: AdapterCall, posts: nat, ok: bool, failed: bool)

  /** The last three fields are history: the adapter executions, how many of them were followed
    * by no committed status update, and how many deliveries by no committed mark_sent. */
  datatype OutboxRow =
    OutboxRow(tenant: string, key: string, cid: CommandId, provider: string, content: string, origin: Origin,
              status: Status, retry: nat, scheduledAt: int, log: seq<Attempt>, lost: nat, unmarked: nat)

  type Outbox = seq<OutboxRow>

  function NewCommand(tenant: string, key: string, cid: CommandId, provider: string, content: string, origin: Origin,
                      now: int): OutboxRow {
    OutboxRow(tenant, key, cid, provider, content, origin, Pending, 0, now, [], 0, 0)
  }

  predicate HasKey(rows: Outbox, tenant: string, key: string) {
    exists i :: 0 <= i < |rows| && rows[i].tenant == tenant && rows[i].key == key
  }

  /** INSERT ... ON CONFLICT DO NOTHING on uq_outbox_idempotency. */
  function Enqueue(rows: Outbox, row: OutboxRow): Outbox {
    if HasKey(rows, row.tenant, row.key) then rows else rows + [row]
  }

  /** Column changes, and the history notes that go with them. */
  datatype Change =
    | MarkSent
    | MarkDeadLettered
    | MarkFailedForRetry(nextAt: int, executed: bool)
    | NoteAttempt(attempt: Attempt)
    | NoteUnmarked
    | NoteLost(delivered: bool)

  function Changed(row: OutboxRow, ch: Change): OutboxRow {
    match ch
    case MarkSent => row.(status := Sent)
    case MarkDeadLettered => row.(status := DeadLettered)
    case MarkFailedForRetry(nextAt, executed) =>
      row.(status := Pending, retry := row.retry + 1, scheduledAt := nextAt,
           log := if executed && |row.log| > 0 then row.log[|row.log| - 1 := row.log[|row.log| - 1].(failed := true)]
             else row.log)
    case NoteAttempt(a) => row.(log := row.log + [a])
    case NoteUnmarked => row.(unmarked := row.unmarked + 1)
    case NoteLost(delivered) => row.(lost := row.lost + 1, unmarked := row.unmarked + if delivered then 1 else 0)
  }

  /** UPDATE ... WHERE command_id == cid.  The status is not tested. */
  function Update(rows: Outbox, cid: CommandId, ch: Change): (r: Outbox)
    ensures |r| == |rows|
    ensures forall i :: 0 <= i < |rows| ==> r[i] == if rows[i].cid == cid then Changed(rows[i], ch) else rows[i]
  {
    seq(|rows|, i requires 0 <= i < |rows| => if rows[i].cid == cid then Changed(rows[i], ch) else rows[i])
  }

  predicate UniqueCids(rows: Outbox) {
    forall i, j :: 0 <= i < j < |rows| ==> rows[i].cid != rows[j].cid
  }

  predicate UniqueKeys(rows: Outbox) {
    forall i, j :: 0 <= i < j < |rows| ==> !(rows[i].tenant == rows[j].tenant && rows[i].key == rows[j].key)
  }

  lemma UpdateOne(rows: Outbox, i: nat, ch: Change)
    requires UniqueCids(rows) && i < |rows|
    ensures Update(rows, rows[i].cid, ch) == rows[i := Changed(rows[i], ch)]
  {
  }

  predicate Due(row: OutboxRow, now: int) {
    row.status.Pending? && row.scheduledAt <= now
  }

  predicate Distinct(pick: seq<nat>) {
    forall a, b :: 0 <= a < b < |pick| ==> pick[a] != pick[b]
  }

  /** SELECT ... WHERE pending AND scheduled_at <= now ORDER BY scheduled_at LIMIT limit:
    * the positions of the rows it may return. */
  predicate IsFetch(rows: Outbox, now: int, limit: nat, pick: seq<nat>) {
    && |pick| <= limit && Distinct(pick)
    && (forall a :: 0 <= a < |pick| ==> pick[a] < |rows| && Due(rows[pick[a]], now))
    && (forall a, b :: 0 <= a < b < |pick| ==> rows[pick[a]].scheduledAt <= rows[pick[b]].scheduledAt)
    && (forall i :: 0 <= i < |rows| && Due(rows[i], now) && i !in pick ==>
          |pick| == limit && forall a :: 0 <= a < |pick| ==> rows[pick[a]].scheduledAt <= rows[i].scheduledAt)
  }

  /** follow_up_queue. */
  datatype ItemStatus = ItemPending | ItemSent | ItemSkipped | ItemFailed

  datatype Item = Item(key: string, tenant: string, conversation: string, triggerAt: int, status: ItemStatus,
                       attempts: nat, maxAttempts: int, optedOut: bool)

  type Queue = seq<Item>

  predicate HasItem(items: Queue, key: string) {
    exists i :: 0 <= i < |items| && items[i].key == key
  }

  /** INSERT ... ON CONFLICT DO NOTHING on uq_follow_up_idempotency. */
  function EnqueueItem(items: Queue, item: Item): Queue {
    if HasItem(items, item.key) then items else items + [item]
  }

  predicate UniqueItemKeys(items: Queue) {
    forall i, j :: 0 <= i < j < |items| ==> items[i].key != items[j].key
  }

  function SetStatus(items: Queue, id: nat, st: ItemStatus): Queue {
    if id < |items| then items[id := items[id].(status := st)] else items
  }

  function IncrementAttempt(items: Queue, id: nat): Queue {
    if id < |items| then items[id := items[id].(attempts := items[id].attempts + 1)] else items
  }

  /** mark_opted_out: every pending item of the conversation. */
  function OptOutAll(items: Queue, tenant: string, conversation: string): (r: Queue)
    ensures |r| == |items|
    ensures forall i :: 0 <= i < |items| ==>
              r[i] == if items[i].tenant == tenant && items[i].conversation == conversation
                && items[i].status.ItemPending?
                      then items[i].(optedOut := true) else items[i]
  {
    seq(|items|, i requires 0 <= i < |items| =>
      if items[i].tenant == tenant && items[i].conversation == conversation && items[i].status.ItemPending?
      then items[i].(optedOut := true) else items[i])
  }

  predicate ItemDue(item: Item, now: int) {
    item.status.ItemPending? && item.triggerAt <= now
  }

  /** SELECT of fetch_due. */
  predicate IsDueFetch(items: Queue, now: int, limit: nat, pick: seq<nat>) {
    && |pick| <= limit && Distinct(pick)
    && (forall a :: 0 <= a < |pick| ==> pick[a] < |items| && ItemDue(items[pick[a]], now))
    && (forall a, b :: 0 <= a < b < |pick| ==> items[pick[a]].triggerAt <= items[pick[b]].triggerAt)
    && (forall i :: 0 <= i < |items| && ItemDue(items[i], now) && i !in pick ==>
          |pick| == limit && forall a :: 0 <= a < |pick| ==> items[pick[a]].triggerAt <= items[i].triggerAt)
  }

  /** int(item.max_attempts or 3): zero is read as three, a negative limit stays negative. */
  function EffectiveMax(maxAttempts: int): int {
    if maxAttempts == 0 then 3 else maxAttempts
  }
}
