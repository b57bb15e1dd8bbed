/** OutboxDrainerWorker as a step system over the outbox: one drainer, a transaction per
  * step, failures and crashes between any two of them.
  *
  * A commit that fails has no effect.  Once the adapter has run, a failed mark_sent falls
  * into the same handler as an adapter error; a failed commit there ends the batch.
  */
module DrainerProtocol {
  import opened Basics
  import opened DeliveryTables
  import McpRetry

  /** maxRetries: iara_outbox_max_retries; mcpRetries: the adapter's POST limit. */
  datatype Config = Config(maxRetries: nat, mcpRetries: nat, providers: set<string>, batch: nat)

  /** What _process_command keeps of a fetched row. */
  datatype Snap = Snap(row: nat, cid: CommandId, retry: nat, provider: string)

  datatype Drainer =
    | Idle
    | Draining(queue: seq<Snap>)
    | Executed(snap: Snap, ok: bool, ran: bool, since: int, queue: seq<Snap>)

  datatype Pipe = Pipe(rows: Outbox, d: Drainer)

  datatype DStep =
    | Fetch(pick: seq<nat>, now: int)
    | GiveUp(commit: bool)
    | NoAdapter
    | PrepareFails
    | Execute(call: AdapterCall)
    | Mark(commit: bool, at: int)
    | Crash

  function ProviderName(p: string): string {
    if p == "" then "chatwoot" else p
  }

  function Backoff(retry: nat): nat {
    30 * Pow2(retry)
  }

  /** Write POSTs of one execution: one retried tool call, reads not counted. */
  function CallPosts(cfg: Config, call: AdapterCall): (n: nat)
    ensures n <= cfg.mcpRetries
  {
    if call.Chatwoot? && call.allowed then McpRetry.Posts(call.answers, cfg.mcpRetries) else 0
  }

  predicate CallOk(cfg: Config, call: AdapterCall) {
    match call
    case Chatwoot(allowed, answers) => allowed && McpRetry.Succeeds(answers, cfg.mcpRetries)
    case Foreign(ok) => ok
  }

  /** The call delivers its command: to Chatwoot if it was allowed and one of its POSTs succeeds
    * after nothing but retryable statuses and network errors. */
  ghost predicate Lands(limit: nat, call: AdapterCall) {
    match call
    case Chatwoot(allowed, answers) =>
      && allowed
      && exists k ::
           && 0 <= k < limit && answers(k).Success?
           && forall i :: 0 <= i < k ==> answers(i).RetryableStatus? || answers(i).NetworkError?
    case Foreign(ok) => ok
  }

  /** The call makes n write POSTs: it goes on exactly after retryable statuses and network
    * errors, up to the limit. */
  ghost predicate MakesPosts(limit: nat, call: AdapterCall, n: nat) {
    if call.Chatwoot? && call.allowed && limit > 0 then
      && 1 <= n <= limit
      && (forall i :: 0 <= i < n - 1 ==> call.answers(i).RetryableStatus? || call.answers(i).NetworkError?)
      && (n < limit ==> !call.answers(n - 1).RetryableStatus? && !call.answers(n - 1).NetworkError?)
    else n == 0
  }

  lemma CallExactly(cfg: Config, call: AdapterCall)
    ensures CallOk(cfg, call) <==> Lands(cfg.mcpRetries, call)
    ensures MakesPosts(cfg.mcpRetries, call, CallPosts(cfg, call))
  {
    if call.Chatwoot? {
      var k := McpRetry.FirstFinal(call.answers, 0, cfg.mcpRetries);
      assert forall i :: 0 <= i < k ==> call.answers(i).Transient();
    }
  }

  function AttemptOf(cfg: Config, clock: int, snap: Snap, call: AdapterCall): Attempt {
    Attempt(clock, snap.retry, call, CallPosts(cfg, call), CallOk(cfg, call), false)
  }

  function Snaps(rows: Outbox, pick: seq<nat>): (q: seq<Snap>)
    requires forall a :: 0 <= a < |pick| ==> pick[a] < |rows|
    ensures |q| == |pick|
  {
    seq(|pick|, a requires 0 <= a < |pick| =>
      Snap(pick[a], rows[pick[a]].cid, rows[pick[a]].retry, rows[pick[a]].provider))
  }

  predicate Resting(d: Drainer) {
    d.Idle? || (d.Draining? && |d.queue| == 0)
  }

  /** The head of the batch is up for an attempt. */
  predicate HeadTry(cfg: Config, d: Drainer) {
    d.Draining? && |d.queue| > 0 && d.queue[0].retry < cfg.maxRetries
  }

  predicate HeadServed(cfg: Config, d: Drainer) {
    HeadTry(cfg, d) && ProviderName(d.queue[0].provider) in cfg.providers
  }

  /** The except branch: retry later, or give up for good. */
  function FailureChange(cfg: Config, snap: Snap, ran: bool, at: int): Change {
    if snap.retry + 1 >= cfg.maxRetries then MarkDeadLettered
    else MarkFailedForRetry(at + Backoff(snap.retry), ran)
  }

  function ApplyMark(cfg: Config, clock: int, p: Pipe, commit: bool, at: int): Pipe
    requires p.d.Executed?
  {
    var Executed(snap, ok, ran, since, queue) := p.d;
    if ok && commit then Pipe(Update(p.rows, snap.cid, MarkSent), Draining(queue))
    else if ok then Pipe(Update(p.rows, snap.cid, NoteUnmarked), Executed(snap, false, ran, since, queue))
    else if commit then
      if since <= at <= clock then Pipe(Update(p.rows, snap.cid, FailureChange(cfg, snap, ran, at)), Draining(queue))
      else p
    else Pipe(if ran then Update(p.rows, snap.cid, NoteLost(false)) else p.rows, Idle)
  }

  function ApplyD(cfg: Config, clock: int, p: Pipe, step: DStep): Pipe {
    match step
    case Fetch(pick, now) =>
      if Resting(p.d) && now <= clock
         && IsFetch(p.rows, now, cfg.batch, pick) then p.(d := Draining(Snaps(p.rows, pick))) else p
    case GiveUp(commit) =>
      if p.d.Draining? && |p.d.queue| > 0 && p.d.queue[0].retry >= cfg.maxRetries then
        if commit then Pipe(Update(p.rows, p.d.queue[0].cid, MarkDeadLettered), Draining(p.d.queue[1..]))
        else p.(d := Idle)
      else p
    case NoAdapter =>
      if HeadTry(cfg, p.d) && !HeadServed(cfg, p.d) then p.(d := Draining(p.d.queue[1..])) else p
    case PrepareFails =>
      if HeadTry(cfg, p.d) then p.(d := Executed(p.d.queue[0], false, false, clock, p.d.queue[1..])) else p
    case Execute(call) =>
      if HeadServed(cfg, p.d) then
        var snap := p.d.queue[0];
        Pipe(Update(p.rows, snap.cid, NoteAttempt(AttemptOf(cfg, clock, snap, call))),
             Executed(snap, CallOk(cfg, call), true, clock, p.d.queue[1..]))
      else p
    case Mark(commit, at) =>
      if p.d.Executed? then ApplyMark(cfg, clock, p, commit, at) else p
    case Crash =>
      Pipe(if p.d.Executed? && p.d.ran then Update(p.rows, p.d.snap.cid, NoteLost(p.d.ok)) else p.rows, Idle)
  }

  // ---------------------------------------------------------------- row invariant

  /** open: the drainer has executed the row and not yet written its status. */
  predicate CountOk(cfg: Config, row: OutboxRow, open: bool) {
    && (row.retry < cfg.maxRetries || row.retry == 0)
    && (|| |row.log| <= row.retry + row.lost
        || ((open || !row.status.Pending?) && row.retry < cfg.maxRetries && |row.log| == row.retry + row.lost + 1))
  }

  predicate GapOk(a: Attempt, b: Attempt) {
    a.retry <= b.retry && (a.failed ==> a.retry < b.retry && a.at + Backoff(a.retry) <= b.at)
  }

  predicate GapAt(log: seq<Attempt>, k: nat)
    requires k + 1 < |log|
  {
    GapOk(log[k], log[k + 1])
  }

  predicate GapsOk(log: seq<Attempt>) {
    forall k: nat :: k + 1 < |log| ==> GapAt(log, k)
  }

  predicate LogOk(cfg: Config, clock: int, row: OutboxRow) {
    && (forall k :: 0 <= k < |row.log| ==>
        row.log[k].at <= clock && row.log[k].retry <= row.retry && row.log[k].posts <= cfg.mcpRetries)
    && GapsOk(row.log)
  }

  function Last(log: seq<Attempt>): Attempt
    requires |log| > 0
  {
    log[|log| - 1]
  }

  predicate ReadyOk(row: OutboxRow) {
    |row.log| > 0 && row.status.Pending? && Last(row.log).failed ==>
      Last(row.log).retry < row.retry && Last(row.log).at + Backoff(Last(row.log).retry) <= row.scheduledAt
  }

  predicate SealedOk(row: OutboxRow, open: bool) {
    row.lost == 0 ==>
      && (forall k :: 0 <= k < |row.log| - 1 ==> row.log[k].failed)
      && (|row.log| > 0 && row.status.Pending? && !open ==> Last(row.log).failed)
  }

  predicate RowOk(cfg: Config, clock: int, row: OutboxRow, open: bool) {
    CountOk(cfg, row, open) && LogOk(cfg, clock, row) && ReadyOk(row) && SealedOk(row, open)
  }

  // ------------------------------------------------------------- drainer invariant

  predicate SnapOk(rows: Outbox, clock: int, snap: Snap) {
    && snap.row < |rows|
    && var row := rows[snap.row];
       row.cid == snap.cid && row.status.Pending? && row.retry == snap.retry && row.provider == snap.provider
         && row.scheduledAt <= clock
  }

  predicate QueueOk(rows: Outbox, clock: int, q: seq<Snap>) {
    && (forall a :: 0 <= a < |q| ==> SnapOk(rows, clock, q[a]))
    && (forall a, b :: 0 <= a < b < |q| ==> q[a].row != q[b].row)
  }

  predicate ExecutedOk(cfg: Config, clock: int, p: Pipe)
    requires p.d.Executed?
  {
    var snap := p.d.snap;
    && SnapOk(p.rows, clock, snap) && snap.retry < cfg.maxRetries && p.d.since <= clock && (p.d.ok ==> p.d.ran)
    && (forall a :: 0 <= a < |p.d.queue| ==> p.d.queue[a].row != snap.row)
    && var log := p.rows[snap.row].log;
       && (|log| > 0 ==> Last(log).at <= p.d.since)
       && (p.d.ran ==> |log| > 0 && Last(log).retry == snap.retry && !Last(log).failed)
  }

  function QueueOf(d: Drainer): seq<Snap> {
    if d.Idle? then [] else d.queue
  }

  predicate Open(d: Drainer, i: nat) {
    d.Executed? && d.ran && d.snap.row == i
  }

  predicate RowsOk(cfg: Config, clock: int, p: Pipe) {
    forall i :: 0 <= i < |p.rows| ==> RowOk(cfg, clock, p.rows[i], Open(p.d, i))
  }

  predicate PipeInv(cfg: Config, clock: int, p: Pipe) {
    UniqueCids(p.rows) && RowsOk(cfg, clock, p) && QueueOk(p.rows, clock, QueueOf(p.d))
      && (p.d.Executed? ==> ExecutedOk(cfg, clock, p))
  }

  // ------------------------------------------------------------ one row, one change

  lemma NoteAttemptKeepsRow(cfg: Config, clock: int, row: OutboxRow, a: Attempt)
    requires RowOk(cfg, clock, row, false) && row.status.Pending? && row.retry < cfg.maxRetries
             && row.scheduledAt <= clock
    requires a.at == clock && a.retry == row.retry && a.posts <= cfg.mcpRetries && !a.failed
    ensures RowOk(cfg, clock, Changed(row, NoteAttempt(a)), true)
  {
    var log' := row.log + [a];
    forall k: nat | k + 1 < |log'|
      ensures GapAt(log', k)
    {
      assert k + 1 < |row.log| ==> GapAt(row.log, k);
    }
  }

  lemma RetryKeepsRow(cfg: Config, clock: int, row: OutboxRow, ran: bool, at: int)
    requires RowOk(cfg, clock, row, ran) && row.status.Pending? && row.retry + 1 < cfg.maxRetries && at <= clock
    requires ran ==> |row.log| > 0 && Last(row.log).retry == row.retry && !Last(row.log).failed
    requires |row.log| > 0 ==> Last(row.log).at <= at
    ensures RowOk(cfg, clock, Changed(row, MarkFailedForRetry(at + Backoff(row.retry), ran)), false)
  {
    var row' := Changed(row, MarkFailedForRetry(at + Backoff(row.retry), ran));
    if |row.log| > 0 {
      Pow2Monotone(Last(row.log).retry, row.retry);
      forall k: nat | k + 1 < |row'.log|
        ensures GapAt(row'.log, k)
      {
        assert GapAt(row.log, k);
      }
    }
  }

  lemma EndKeepsRow(cfg: Config, clock: int, row: OutboxRow, open: bool, ch: Change)
    requires RowOk(cfg, clock, row, open) && (ch.MarkSent? || ch.MarkDeadLettered?)
    ensures RowOk(cfg, clock, Changed(row, ch), false)
  {
  }

  lemma LostKeepsRow(cfg: Config, clock: int, row: OutboxRow, delivered: bool)
    requires RowOk(cfg, clock, row, true) && row.status.Pending?
    ensures RowOk(cfg, clock, Changed(row, NoteLost(delivered)), false)
  {
  }

  lemma UnmarkedKeepsRow(cfg: Config, clock: int, row: OutboxRow, open: bool)
    requires RowOk(cfg, clock, row, open)
    ensures RowOk(cfg, clock, Changed(row, NoteUnmarked), open)
  {
  }

  // ---------------------------------------------------------------------- each step

  /** One row replaced, the batch shortened by the row that was replaced. */
  lemma ReplaceKeepsPipe(cfg: Config, clock: int, p: Pipe, i: nat, row': OutboxRow, d': Drainer)
    requires PipeInv(cfg, clock, p) && i < |p.rows| && row'.cid == p.rows[i].cid
    requires forall k :: 0 <= k < |p.rows| && k != i ==> !Open(p.d, k) && !Open(d', k)
    requires RowOk(cfg, clock, row', Open(d', i))
    requires QueueOk(p.rows, clock, QueueOf(d')) && forall a :: 0 <= a < |QueueOf(d')| ==> QueueOf(d')[a].row != i
    requires d'.Executed? ==> ExecutedOk(cfg, clock, Pipe(p.rows[i := row'], d'))
    ensures PipeInv(cfg, clock, Pipe(p.rows[i := row'], d'))
  {
    var p' := Pipe(p.rows[i := row'], d');
    forall k | 0 <= k < |p'.rows|
      ensures RowOk(cfg, clock, p'.rows[k], Open(d', k))
    {
      if k != i {
        assert RowOk(cfg, clock, p.rows[k], Open(p.d, k));
      }
    }
    forall a | 0 <= a < |QueueOf(d')|
      ensures SnapOk(p'.rows, clock, QueueOf(d')[a])
    {
      assert SnapOk(p.rows, clock, QueueOf(d')[a]);
    }
  }

  /** No row changes. */
  lemma RelabelKeepsPipe(cfg: Config, clock: int, p: Pipe, d': Drainer)
    requires PipeInv(cfg, clock, p) && QueueOk(p.rows, clock, QueueOf(d'))
    requires forall k :: 0 <= k < |p.rows| ==> Open(p.d, k) == Open(d', k)
    requires d'.Executed? ==> ExecutedOk(cfg, clock, Pipe(p.rows, d'))
    ensures PipeInv(cfg, clock, Pipe(p.rows, d'))
  {
    forall k | 0 <= k < |p.rows|
      ensures RowOk(cfg, clock, p.rows[k], Open(d', k))
    {
      assert RowOk(cfg, clock, p.rows[k], Open(p.d, k));
    }
  }

  lemma FetchKeepsPipe(cfg: Config, clock: int, p: Pipe, pick: seq<nat>, now: int)
    requires PipeInv(cfg, clock, p) && Resting(p.d) && now <= clock && IsFetch(p.rows, now, cfg.batch, pick)
    ensures PipeInv(cfg, clock, Pipe(p.rows, Draining(Snaps(p.rows, pick))))
  {
    var q := Snaps(p.rows, pick);
    forall a | 0 <= a < |q|
      ensures SnapOk(p.rows, clock, q[a])
    {
      assert Due(p.rows[pick[a]], now);
    }
    RelabelKeepsPipe(cfg, clock, p, Draining(q));
  }

  lemma TailOk(rows: Outbox, clock: int, q: seq<Snap>)
    requires QueueOk(rows, clock, q) && |q| > 0
    ensures QueueOk(rows, clock, q[1..]) && forall a :: 0 <= a < |q[1..]| ==> q[1..][a].row != q[0].row
  {
    assert forall a :: 0 <= a < |q[1..]| ==> q[1..][a] == q[a + 1];
  }

  lemma HeadStepKeepsPipe(cfg: Config, clock: int, p: Pipe, step: DStep)
    requires PipeInv(cfg, clock, p) && p.d.Draining? && |p.d.queue| > 0
    requires step.GiveUp? || step.NoAdapter? || step.PrepareFails? || step.Execute?
    ensures PipeInv(cfg, clock, ApplyD(cfg, clock, p, step))
  {
    var snap, tail := p.d.queue[0], p.d.queue[1..];
    TailOk(p.rows, clock, p.d.queue);
    assert SnapOk(p.rows, clock, snap);
    var row := p.rows[snap.row];
    assert RowOk(cfg, clock, row, Open(p.d, snap.row));
    match step
    case GiveUp(commit) =>
      RelabelKeepsPipe(cfg, clock, p, Idle);
      UpdateOne(p.rows, snap.row, MarkDeadLettered);
      EndKeepsRow(cfg, clock, row, false, MarkDeadLettered);
      ReplaceKeepsPipe(cfg, clock, p, snap.row, Changed(row, MarkDeadLettered), Draining(tail));
    case NoAdapter =>
      RelabelKeepsPipe(cfg, clock, p, Draining(tail));
    case PrepareFails =>
      if HeadTry(cfg, p.d) {
        RelabelKeepsPipe(cfg, clock, p, Executed(snap, false, false, clock, tail));
      }
    case Execute(call) =>
      if HeadServed(cfg, p.d) {
        var a := AttemptOf(cfg, clock, snap, call);
        UpdateOne(p.rows, snap.row, NoteAttempt(a));
        NoteAttemptKeepsRow(cfg, clock, row, a);
        ReplaceKeepsPipe(cfg, clock, p, snap.row, Changed(row, NoteAttempt(a)),
                         Executed(snap, CallOk(cfg, call), true, clock, tail));
      }
  }

  lemma LoseKeepsPipe(cfg: Config, clock: int, p: Pipe, delivered: bool)
    requires PipeInv(cfg, clock, p) && p.d.Executed?
    ensures PipeInv(cfg, clock,
                    Pipe(if p.d.ran then Update(p.rows, p.d.snap.cid, NoteLost(delivered)) else p.rows, Idle))
  {
    var i := p.d.snap.row;
    if p.d.ran {
      UpdateOne(p.rows, i, NoteLost(delivered));
      LostKeepsRow(cfg, clock, p.rows[i], delivered);
      ReplaceKeepsPipe(cfg, clock, p, i, Changed(p.rows[i], NoteLost(delivered)), Idle);
    } else {
      RelabelKeepsPipe(cfg, clock, p, Idle);
    }
  }

  lemma MarkKeepsPipe(cfg: Config, clock: int, p: Pipe, commit: bool, at: int)
    requires PipeInv(cfg, clock, p) && p.d.Executed?
    ensures PipeInv(cfg, clock, ApplyMark(cfg, clock, p, commit, at))
  {
    var Executed(snap, ok, ran, since, queue) := p.d;
    var i := snap.row;
    var row := p.rows[i];
    assert RowOk(cfg, clock, row, Open(p.d, i));
    if ok && commit {
      UpdateOne(p.rows, i, MarkSent);
      EndKeepsRow(cfg, clock, row, ran, MarkSent);
      ReplaceKeepsPipe(cfg, clock, p, i, Changed(row, MarkSent), Draining(queue));
    } else if ok {
      UpdateOne(p.rows, i, NoteUnmarked);
      UnmarkedKeepsRow(cfg, clock, row, ran);
      ReplaceKeepsPipe(cfg, clock, p, i, Changed(row, NoteUnmarked), Executed(snap, false, ran, since, queue));
    } else if commit {
      if since <= at <= clock {
        FailureKeepsPipe(cfg, clock, p, at);
      }
    } else {
      LoseKeepsPipe(cfg, clock, p, false);
    }
  }

  lemma FailureKeepsPipe(cfg: Config, clock: int, p: Pipe, at: int)
    requires PipeInv(cfg, clock, p) && p.d.Executed? && p.d.since <= at <= clock
    ensures PipeInv(cfg, clock,
                    Pipe(Update(p.rows, p.d.snap.cid, FailureChange(cfg, p.d.snap, p.d.ran, at)), Draining(p.d.queue)))
  {
    var snap, i := p.d.snap, p.d.snap.row;
    var row, ch := p.rows[i], FailureChange(cfg, snap, p.d.ran, at);
    assert RowOk(cfg, clock, row, Open(p.d, i));
    UpdateOne(p.rows, i, ch);
    if ch.MarkDeadLettered? {
      EndKeepsRow(cfg, clock, row, p.d.ran, ch);
    } else {
      RetryKeepsRow(cfg, clock, row, p.d.ran, at);
    }
    ReplaceKeepsPipe(cfg, clock, p, i, Changed(row, ch), Draining(p.d.queue));
  }

  lemma DStepKeepsPipe(cfg: Config, clock: int, p: Pipe, step: DStep)
    requires PipeInv(cfg, clock, p)
    ensures PipeInv(cfg, clock, ApplyD(cfg, clock, p, step))
  {
    match step
    case Fetch(pick, now) =>
      if Resting(p.d) && now <= clock && IsFetch(p.rows, now, cfg.batch, pick) {
        FetchKeepsPipe(cfg, clock, p, pick, now);
      }
    case Mark(commit, at) =>
      if p.d.Executed? {
        MarkKeepsPipe(cfg, clock, p, commit, at);
      }
    case Crash =>
      if p.d.Executed? {
        LoseKeepsPipe(cfg, clock, p, p.d.ok);
      } else {
        RelabelKeepsPipe(cfg, clock, p, Idle);
      }
    case _ =>
      if p.d.Draining? && |p.d.queue| > 0 {
        HeadStepKeepsPipe(cfg, clock, p, step);
      }
  }

  lemma TickKeepsPipe(cfg: Config, clock: int, later: int, p: Pipe)
    requires PipeInv(cfg, clock, p) && clock <= later
    ensures PipeInv(cfg, later, p)
  {
    forall i | 0 <= i < |p.rows|
      ensures RowOk(cfg, later, p.rows[i], Open(p.d, i))
    {
      assert RowOk(cfg, clock, p.rows[i], Open(p.d, i));
    }
    forall a | 0 <= a < |QueueOf(p.d)|
      ensures SnapOk(p.rows, later, QueueOf(p.d)[a])
    {
      assert SnapOk(p.rows, clock, QueueOf(p.d)[a]);
    }
  }

  // ------------------------------------------------------------- what sent means

  /** What the history says about an execution is what happened in it. */
  ghost predicate TrueRecord(cfg: Config, a: Attempt) {
    (a.ok <==> Lands(cfg.mcpRetries, a.call)) && MakesPosts(cfg.mcpRetries, a.call, a.posts)
  }

  ghost predicate TrueLog(cfg: Config, log: seq<Attempt>) {
    forall k :: 0 <= k < |log| ==> TrueRecord(cfg, log[k])
  }

  ghost predicate TrueLogs(cfg: Config, rows: Outbox) {
    forall i :: 0 <= i < |rows| ==> TrueLog(cfg, rows[i].log)
  }

  lemma ChangeKeepsLog(cfg: Config, row: OutboxRow, ch: Change)
    requires TrueLog(cfg, row.log) && (ch.NoteAttempt? ==> TrueRecord(cfg, ch.attempt))
    ensures TrueLog(cfg, Changed(row, ch).log)
  {
    var log' := Changed(row, ch).log;
    forall k | 0 <= k < |log'|
      ensures TrueRecord(cfg, log'[k])
    {
      assert k < |row.log| ==> TrueRecord(cfg, row.log[k]);
    }
  }

  lemma UpdateKeepsLogs(cfg: Config, rows: Outbox, cid: CommandId, ch: Change)
    requires TrueLogs(cfg, rows) && (ch.NoteAttempt? ==> TrueRecord(cfg, ch.attempt))
    ensures TrueLogs(cfg, Update(rows, cid, ch))
  {
    forall i | 0 <= i < |rows|
      ensures TrueLog(cfg, Update(rows, cid, ch)[i].log)
    {
      ChangeKeepsLog(cfg, rows[i], ch);
    }
  }

  lemma DStepKeepsLogs(cfg: Config, clock: int, p: Pipe, step: DStep)
    requires TrueLogs(cfg, p.rows)
    ensures TrueLogs(cfg, ApplyD(cfg, clock, p, step).rows)
  {
    match step
    case Execute(call) =>
      if HeadServed(cfg, p.d) {
        CallExactly(cfg, call);
        UpdateKeepsLogs(cfg, p.rows, p.d.queue[0].cid, NoteAttempt(AttemptOf(cfg, clock, p.d.queue[0], call)));
      }
    case GiveUp(commit) =>
      if p.d.Draining? && |p.d.queue| > 0 {
        UpdateKeepsLogs(cfg, p.rows, p.d.queue[0].cid, MarkDeadLettered);
      }
    case Mark(commit, at) =>
      if p.d.Executed? {
        MarkKeepsLogs(cfg, clock, p, commit, at);
      }
    case Crash =>
      if p.d.Executed? {
        UpdateKeepsLogs(cfg, p.rows, p.d.snap.cid, NoteLost(p.d.ok));
      }
    case _ =>
  }

  lemma MarkKeepsLogs(cfg: Config, clock: int, p: Pipe, commit: bool, at: int)
    requires TrueLogs(cfg, p.rows) && p.d.Executed?
    ensures TrueLogs(cfg, ApplyMark(cfg, clock, p, commit, at).rows)
  {
    var cid := p.d.snap.cid;
    if p.d.ok {
      UpdateKeepsLogs(cfg, p.rows, cid, if commit then MarkSent else NoteUnmarked);
    } else {
      UpdateKeepsLogs(cfg, p.rows, cid, if commit then FailureChange(cfg, p.d.snap, p.d.ran, at) else NoteLost(false));
    }
  }

  /** The execution of a call is logged with that very call, at that time. */
  lemma ExecutionIsLogged(cfg: Config, clock: int, p: Pipe, call: AdapterCall)
    requires PipeInv(cfg, clock, p) && HeadServed(cfg, p.d)
    ensures var i := p.d.queue[0].row;
            var log' := ApplyD(cfg, clock, p, Execute(call)).rows[i].log;
            && |log'| == |p.rows[i].log| + 1 && log'[..|p.rows[i].log|] == p.rows[i].log
            && Last(log').call == call && Last(log').at == clock && Last(log').retry == p.rows[i].retry
            && TrueRecord(cfg, Last(log'))
  {
    CallExactly(cfg, call);
    assert SnapOk(p.rows, clock, p.d.queue[0]);
  }

  /** Adapter executions that delivered the command. */
  function Deliveries(log: seq<Attempt>): nat {
    if |log| == 0 then 0 else Deliveries(log[..|log| - 1]) + if log[|log| - 1].ok then 1 else 0
  }

  lemma {:induction false} SomeDelivery(log: seq<Attempt>)
    ensures Deliveries(log) > 0 <==> exists k :: 0 <= k < |log| && log[k].ok
  {
    if |log| > 0 {
      var init := log[..|log| - 1];
      SomeDelivery(init);
      assert forall k :: 0 <= k < |init| ==> init[k] == log[k];
    }
  }

  /** The drainer holds a delivery of row i that it has not yet tried to mark. */
  predicate Owed(d: Drainer, i: nat) {
    Open(d, i) && d.ok
  }

  /** Every delivery is accounted for: marked as sent, unmarked for good, or owed. */
  predicate RowMarks(row: OutboxRow, owed: bool) {
    && Deliveries(row.log) == row.unmarked + (if row.status.Sent? then 1 else 0) + (if owed then 1 else 0)
    && (row.status.Sent? || owed ==> |row.log| > 0 && Last(row.log).ok)
  }

  predicate MarksOk(p: Pipe) {
    forall i :: 0 <= i < |p.rows| ==> RowMarks(p.rows[i], Owed(p.d, i))
  }

  lemma ReplaceKeepsMarks(p: Pipe, i: nat, row': OutboxRow, d': Drainer)
    requires MarksOk(p) && i < |p.rows| && RowMarks(row', Owed(d', i))
    requires forall k :: 0 <= k < |p.rows| && k != i ==> Owed(p.d, k) == Owed(d', k)
    ensures MarksOk(Pipe(p.rows[i := row'], d'))
  {
    forall k | 0 <= k < |p.rows|
      ensures RowMarks(p.rows[i := row'][k], Owed(d', k))
    {
      assert k != i ==> RowMarks(p.rows[k], Owed(p.d, k));
    }
  }

  lemma RelabelKeepsMarks(p: Pipe, d': Drainer)
    requires MarksOk(p) && forall k :: 0 <= k < |p.rows| ==> Owed(p.d, k) == Owed(d', k)
    ensures MarksOk(Pipe(p.rows, d'))
  {
    forall k | 0 <= k < |p.rows|
      ensures RowMarks(p.rows[k], Owed(d', k))
    {
      assert RowMarks(p.rows[k], Owed(p.d, k));
    }
  }

  /** What each change does to a pending row's account. */
  lemma ChangeKeepsMarks(row: OutboxRow, owed: bool, ch: Change)
    requires RowMarks(row, owed) && row.status.Pending?
    ensures owed ==> RowMarks(Changed(row, MarkSent), false)
    ensures owed ==> RowMarks(Changed(row, NoteUnmarked), false)
    ensures RowMarks(Changed(row, NoteLost(owed)), false)
    ensures !owed && (ch.MarkDeadLettered? || ch.MarkFailedForRetry?) ==> RowMarks(Changed(row, ch), false)
    ensures !owed && ch.NoteAttempt? ==> RowMarks(Changed(row, ch), ch.attempt.ok)
  {
    var row' := Changed(row, ch);
    if |row'.log| > 0 && |row.log| > 0 {
      assert ch.MarkFailedForRetry? ==> row'.log[..|row'.log| - 1] == row.log[..|row.log| - 1];
    }
    assert ch.NoteAttempt? ==> row'.log[..|row'.log| - 1] == row.log;
  }

  lemma HeadStepKeepsMarks(cfg: Config, clock: int, p: Pipe, step: DStep)
    requires PipeInv(cfg, clock, p) && MarksOk(p) && p.d.Draining? && |p.d.queue| > 0
    requires step.GiveUp? || step.NoAdapter? || step.PrepareFails? || step.Execute?
    ensures MarksOk(ApplyD(cfg, clock, p, step))
  {
    var snap, p' := p.d.queue[0], ApplyD(cfg, clock, p, step);
    assert SnapOk(p.rows, clock, snap);
    var row := p.rows[snap.row];
    assert RowMarks(row, Owed(p.d, snap.row));
    if p'.rows == p.rows {
      RelabelKeepsMarks(p, p'.d);
    } else {
      var ch := if step.Execute? then NoteAttempt(AttemptOf(cfg, clock, snap, step.call)) else MarkDeadLettered;
      UpdateOne(p.rows, snap.row, ch);
      ChangeKeepsMarks(row, false, ch);
      ReplaceKeepsMarks(p, snap.row, Changed(row, ch), p'.d);
    }
  }

  lemma ExecutedStepKeepsMarks(cfg: Config, clock: int, p: Pipe, step: DStep)
    requires PipeInv(cfg, clock, p) && MarksOk(p) && p.d.Executed? && (step.Mark? || step.Crash?)
    ensures MarksOk(ApplyD(cfg, clock, p, step))
  {
    var snap, p' := p.d.snap, ApplyD(cfg, clock, p, step);
    var row := p.rows[snap.row];
    var owed := Owed(p.d, snap.row);
    assert RowMarks(row, owed);
    if p' == p {
    } else if p'.rows == p.rows && !owed {
      RelabelKeepsMarks(p, p'.d);
    } else {
      var ch := if step.Crash? then NoteLost(p.d.ok)
                else if p.d.ok then if step.commit then MarkSent else NoteUnmarked
                else if step.commit then FailureChange(cfg, snap, p.d.ran, step.at) else NoteLost(false);
      UpdateOne(p.rows, snap.row, ch);
      ChangeKeepsMarks(row, owed, ch);
      ReplaceKeepsMarks(p, snap.row, Changed(row, ch), p'.d);
    }
  }

  lemma DStepKeepsMarks(cfg: Config, clock: int, p: Pipe, step: DStep)
    requires PipeInv(cfg, clock, p) && MarksOk(p)
    ensures MarksOk(ApplyD(cfg, clock, p, step))
  {
    match step
    case Fetch(pick, now) =>
      if Resting(p.d) {
        RelabelKeepsMarks(p, ApplyD(cfg, clock, p, step).d);
      }
    case Mark(commit, at) =>
      if p.d.Executed? {
        ExecutedStepKeepsMarks(cfg, clock, p, step);
      }
    case Crash =>
      if p.d.Executed? {
        ExecutedStepKeepsMarks(cfg, clock, p, step);
      } else {
        RelabelKeepsMarks(p, Idle);
      }
    case _ =>
      if p.d.Draining? && |p.d.queue| > 0 {
        HeadStepKeepsMarks(cfg, clock, p, step);
      }
  }

  // ------------------------------------------------------------------ consequences

  predicate SameCommand(a: OutboxRow, b: OutboxRow) {
    a.tenant == b.tenant && a.key == b.key && a.cid == b.cid && a.provider == b.provider && a.content == b.content
      && a.origin == b.origin
  }

  /** What every step respects: no row is added, removed or renamed, and a row that has
    * left Pending is not touched, although no update tests the status. */
  ghost predicate RowsKept(rows: Outbox, rows': Outbox) {
    && |rows'| == |rows|
    && (forall i :: 0 <= i < |rows| ==> SameCommand(rows[i], rows'[i]))
    && (forall i :: 0 <= i < |rows| && !rows[i].status.Pending? ==> rows'[i] == rows[i])
  }

  lemma UpdateKeepsRows(rows: Outbox, i: nat, ch: Change)
    requires UniqueCids(rows) && i < |rows| && rows[i].status.Pending?
    ensures RowsKept(rows, Update(rows, rows[i].cid, ch))
  {
    UpdateOne(rows, i, ch);
  }

  lemma ExecutedFrame(cfg: Config, clock: int, p: Pipe, step: DStep)
    requires PipeInv(cfg, clock, p) && p.d.Executed?
    ensures RowsKept(p.rows, ApplyD(cfg, clock, p, step).rows)
  {
    var i := p.d.snap.row;
    UpdateKeepsRows(p.rows, i, MarkSent);
    UpdateKeepsRows(p.rows, i, NoteUnmarked);
    UpdateKeepsRows(p.rows, i, NoteLost(false));
    UpdateKeepsRows(p.rows, i, NoteLost(p.d.ok));
    if step.Mark? {
      UpdateKeepsRows(p.rows, i, FailureChange(cfg, p.d.snap, p.d.ran, step.at));
    }
  }

  lemma HeadFrame(cfg: Config, clock: int, p: Pipe, step: DStep)
    requires PipeInv(cfg, clock, p) && p.d.Draining? && |p.d.queue| > 0
    ensures RowsKept(p.rows, ApplyD(cfg, clock, p, step).rows)
  {
    var snap := p.d.queue[0];
    assert SnapOk(p.rows, clock, snap);
    UpdateKeepsRows(p.rows, snap.row, MarkDeadLettered);
    if step.Execute? {
      UpdateKeepsRows(p.rows, snap.row, NoteAttempt(AttemptOf(cfg, clock, snap, step.call)));
    }
  }

  lemma DStepFrame(cfg: Config, clock: int, p: Pipe, step: DStep)
    requires PipeInv(cfg, clock, p)
    ensures RowsKept(p.rows, ApplyD(cfg, clock, p, step).rows)
  {
    if p.d.Executed? {
      ExecutedFrame(cfg, clock, p, step);
    } else if p.d.Draining? && |p.d.queue| > 0 {
      HeadFrame(cfg, clock, p, step);
    }
  }

  lemma {:induction false} SpanUpTo(log: seq<Attempt>, k: nat)
    requires k < |log|
    requires GapsOk(log) && forall j :: 0 <= j < k ==> log[j].failed
    ensures log[k].retry >= k && log[k].at - log[0].at >= 30 * (Pow2(k) - 1)
  {
    if k > 0 {
      SpanUpTo(log, k - 1);
      assert GapAt(log, k - 1);
      Pow2Monotone(k - 1, log[k - 1].retry);
    }
  }

  /** n executions of one command without a lost commit span at least 30 * (2^(n-1) - 1). */
  lemma BackoffSpan(cfg: Config, clock: int, row: OutboxRow, open: bool)
    requires RowOk(cfg, clock, row, open) && row.lost == 0 && |row.log| > 0
    ensures Last(row.log).at - row.log[0].at >= 30 * (Pow2(|row.log| - 1) - 1)
  {
    SpanUpTo(row.log, |row.log| - 1);
  }

  function TotalPosts(log: seq<Attempt>): nat {
    if |log| == 0 then 0 else TotalPosts(log[..|log| - 1]) + log[|log| - 1].posts
  }

  lemma {:induction false} PostsPerAttempt(log: seq<Attempt>, r: nat)
    requires forall k :: 0 <= k < |log| ==> log[k].posts <= r
    ensures TotalPosts(log) <= |log| * r
  {
    if |log| > 0 {
      PostsPerAttempt(log[..|log| - 1], r);
      assert (|log| - 1) * r + r == |log| * r;
    }
  }

  /** One command: at most (maxRetries + lost commits) executions, mcpRetries POSTs each. */
  lemma RowPosts(cfg: Config, clock: int, row: OutboxRow, open: bool)
    requires RowOk(cfg, clock, row, open)
    ensures |row.log| <= cfg.maxRetries + row.lost
    ensures TotalPosts(row.log) <= (cfg.maxRetries + row.lost) * cfg.mcpRetries
  {
    PostsPerAttempt(row.log, cfg.mcpRetries);
    MulMonotone(|row.log|, cfg.maxRetries + row.lost, cfg.mcpRetries);
  }

  lemma MulMonotone(a: nat, b: nat, r: nat)
    requires a <= b
    ensures a * r <= b * r
  {
    assert (b - a) * r >= 0;
    assert b * r == a * r + (b - a) * r;
  }
}
