/** OutboxRepository and OutboxDrainerWorker as objects, and the drain measure: what one
  * batch achieves, with commits that fail or succeed, and that repeated polls finish. */
module OutboxDrainer {
  import opened Basics
  import opened DeliveryTables
  import opened DrainerProtocol
  import opened Sorting

  // ------------------------------------------------------------------ specification

  /** What one _process_command call meets: whether the command can be built from the row,
    * what the adapter does and how long it takes, whether the first status commit succeeds
    * (dead letter or mark_sent), and whether the one in the except branch does. */
  datatype Outcome = Outcome(builds: bool, call: AdapterCall, took: nat, commits: bool, handled: bool)

  predicate NoFault(o: Outcome) {
    o.commits && o.handled
  }

  /** The clock and the table afterwards, and whether an exception escapes. */
  datatype Progress = Progress(clock: int, rows: Outbox, raised: bool)

  /** The except branch. */
  function HandleFailure(cfg: Config, clock: int, rows: Outbox, snap: Snap, ran: bool, handled: bool): Progress {
    if handled then Progress(clock, Update(rows, snap.cid, FailureChange(cfg, snap, ran, clock)), false)
    else Progress(clock, if ran then Update(rows, snap.cid, NoteLost(false)) else rows, true)
  }

  /** _process_command. */
  function ProcessOne(cfg: Config, clock: int, rows: Outbox, snap: Snap, o: Outcome): Progress {
    if snap.retry >= cfg.maxRetries then
      if o.commits then Progress(clock, Update(rows, snap.cid, MarkDeadLettered), false)
      else Progress(clock, rows, true)
    else if !o.builds then HandleFailure(cfg, clock, rows, snap, false, o.handled)
    else if ProviderName(snap.provider) !in cfg.providers then Progress(clock, rows, false)
    else
      var later := clock + o.took;
      var ran := Update(rows, snap.cid, NoteAttempt(AttemptOf(cfg, clock, snap, o.call)));
      if !CallOk(cfg, o.call) then HandleFailure(cfg, later, ran, snap, true, o.handled)
      else if o.commits then Progress(later, Update(ran, snap.cid, MarkSent), false)
      else HandleFailure(cfg, later, Update(ran, snap.cid, NoteUnmarked), snap, true, o.handled)
  }

  /** The loop over the batch; an exception ends it.  Snapshots of a batch are distinct, so
    * calls may give each command any outcome. */
  function Pass(cfg: Config, clock: int, rows: Outbox, queue: seq<Snap>, calls: Snap -> Outcome): Progress
    decreases |queue|
  {
    if |queue| == 0 then Progress(clock, rows, false)
    else
      var p := ProcessOne(cfg, clock, rows, queue[0], calls(queue[0]));
      if p.raised then p else Pass(cfg, p.clock, p.rows, queue[1..], calls)
  }

  // ------------------------------------------------------ what becomes of a command

  predicate HasAdapter(cfg: Config, provider: string) {
    (if provider == "" then "chatwoot" else provider) in cfg.providers
  }

  /** The adapter is called. */
  predicate Runs(cfg: Config, row: OutboxRow, o: Outcome) {
    row.retry < cfg.maxRetries && o.builds && HasAdapter(cfg, row.provider)
  }

  ghost predicate SameColumns(row: OutboxRow, row': OutboxRow) {
    row'.status == row.status && row'.retry == row.retry && row'.scheduledAt == row.scheduledAt
  }

  /** The columns of the row afterwards, and whether an exception escapes: dead if out of
    * retries, untouched if its provider has no adapter, sent if the call landed and that was
    * committed, and otherwise dead at the last retry or due again 30 * 2^retry later. */
  ghost predicate RowBecomes(cfg: Config, row: OutboxRow, row': OutboxRow, o: Outcome, end: int, raised: bool) {
    if row.retry >= cfg.maxRetries then
      raised == !o.commits && if o.commits then row'.status.DeadLettered? else row' == row
    else if o.builds && !HasAdapter(cfg, row.provider) then !raised && row' == row
    else if o.builds && Lands(cfg.mcpRetries, o.call) && o.commits then !raised && row'.status.Sent?
    else if !o.handled then raised && SameColumns(row, row')
    else if row.retry + 1 >= cfg.maxRetries then !raised && row'.status.DeadLettered?
    else !raised && row'.status.Pending? && row'.retry == row.retry + 1
         && row'.scheduledAt == end + 30 * Pow2(row.retry)
  }

  /** And its history: one execution more exactly if the adapter was called, with its call. */
  ghost predicate LogBecomes(cfg: Config, clock: int, row: OutboxRow, row': OutboxRow, o: Outcome) {
    if Runs(cfg, row, o) then
      && |row'.log| == |row.log| + 1
      && Last(row'.log).call == o.call && Last(row'.log).at == clock && Last(row'.log).retry == row.retry
    else |row'.log| == |row.log|
  }

  ghost predicate Becomes(cfg: Config, clock: int, rows: Outbox, i: nat, o: Outcome, p: Progress) {
    && |p.rows| == |rows| && i < |rows|
    && (forall k :: 0 <= k < |rows| && k != i ==> p.rows[k] == rows[k])
    && SameCommand(rows[i], p.rows[i])
    && p.clock == clock + (if Runs(cfg, rows[i], o) then o.took else 0)
    && RowBecomes(cfg, rows[i], p.rows[i], o, p.clock, p.raised)
    && LogBecomes(cfg, clock, rows[i], p.rows[i], o)
  }

  lemma HandlerBecomes(cfg: Config, clock: int, rows: Outbox, snap: Snap, ran: bool, handled: bool)
    requires UniqueCids(rows) && snap.row < |rows| && rows[snap.row].cid == snap.cid
    requires rows[snap.row].status.Pending? && rows[snap.row].retry == snap.retry < cfg.maxRetries
    ensures var p := HandleFailure(cfg, clock, rows, snap, ran, handled);
            var row := rows[snap.row];
            && p.clock == clock && p.raised == !handled && |p.rows| == |rows|
            && (forall k :: 0 <= k < |rows| && k != snap.row ==> p.rows[k] == rows[k])
            && var row' := p.rows[snap.row];
               && SameCommand(row, row') && |row'.log| == |row.log|
               && (|row.log| > 0 ==> SameCall(Last(row.log), Last(row'.log)))
               && (!handled ==> SameColumns(row, row'))
               && (handled && snap.retry + 1 >= cfg.maxRetries ==> row'.status.DeadLettered?)
               && (handled && snap.retry + 1 < cfg.maxRetries ==>
                     row'.status.Pending? && row'.retry == row.retry + 1
                       && row'.scheduledAt == clock + 30 * Pow2(row.retry))
  {
    UpdateOne(rows, snap.row, if handled then FailureChange(cfg, snap, ran, clock) else NoteLost(false));
  }

  ghost predicate SameCall(a: Attempt, b: Attempt) {
    a.call == b.call && a.at == b.at && a.retry == b.retry
  }

  lemma DeliveryBecomes(cfg: Config, clock: int, rows: Outbox, snap: Snap, o: Outcome)
    requires UniqueCids(rows) && SnapOk(rows, clock, snap) && Runs(cfg, rows[snap.row], o)
    ensures Becomes(cfg, clock, rows, snap.row, o, ProcessOne(cfg, clock, rows, snap, o))
  {
    var i, later := snap.row, clock + o.took;
    var note := NoteAttempt(AttemptOf(cfg, clock, snap, o.call));
    CallExactly(cfg, o.call);
    UpdateOne(rows, i, note);
    var ran := rows[i := Changed(rows[i], note)];
    if !CallOk(cfg, o.call) {
      HandlerBecomes(cfg, later, ran, snap, true, o.handled);
    } else if o.commits {
      UpdateOne(ran, i, MarkSent);
    } else {
      UpdateOne(ran, i, NoteUnmarked);
      HandlerBecomes(cfg, later, ran[i := Changed(ran[i], NoteUnmarked)], snap, true, o.handled);
    }
  }

  /** What _process_command makes of a fetched row, in terms of its columns, the provider's
    * answers and the commits alone. */
  lemma ProcessOneExactly(cfg: Config, clock: int, rows: Outbox, snap: Snap, o: Outcome)
    requires UniqueCids(rows) && SnapOk(rows, clock, snap)
    ensures Becomes(cfg, clock, rows, snap.row, o, ProcessOne(cfg, clock, rows, snap, o))
  {
    if Runs(cfg, rows[snap.row], o) {
      DeliveryBecomes(cfg, clock, rows, snap, o);
    } else if snap.retry >= cfg.maxRetries {
      UpdateOne(rows, snap.row, MarkDeadLettered);
    } else if !o.builds {
      HandlerBecomes(cfg, clock, rows, snap, false, o.handled);
    }
  }

  // ---------------------------------------------------- a command is a run of steps

  /** A drainer step, and the time that passes before it. */
  datatype Timed = Timed(wait: nat, step: DStep)

  datatype Moment = Moment(clock: int, p: Pipe)

  function ExecT(cfg: Config, m: Moment, steps: seq<Timed>): Moment
    decreases |steps|
  {
    if |steps| == 0 then m
    else
      var clock := m.clock + steps[0].wait;
      ExecT(cfg, Moment(clock, ApplyD(cfg, clock, m.p, steps[0].step)), steps[1..])
  }

  function StepsFor(cfg: Config, clock: int, snap: Snap, o: Outcome): seq<Timed> {
    var later := clock + o.took;
    if snap.retry >= cfg.maxRetries then [Timed(0, GiveUp(o.commits))]
    else if !o.builds then [Timed(0, PrepareFails), Timed(0, Mark(o.handled, clock))]
    else if ProviderName(snap.provider) !in cfg.providers then [Timed(0, NoAdapter)]
    else if !CallOk(cfg, o.call) then [Timed(0, Execute(o.call)), Timed(o.took, Mark(o.handled, later))]
    else if o.commits then [Timed(0, Execute(o.call)), Timed(o.took, Mark(true, later))]
    else [Timed(0, Execute(o.call)), Timed(o.took, Mark(false, later)), Timed(0, Mark(o.handled, later))]
  }

  lemma ExecCons(cfg: Config, m: Moment, a: Timed, rest: seq<Timed>)
    ensures ExecT(cfg, m, [a]) == Moment(m.clock + a.wait, ApplyD(cfg, m.clock + a.wait, m.p, a.step))
    ensures ExecT(cfg, m, [a] + rest) == ExecT(cfg, ExecT(cfg, m, [a]), rest)
  {
    assert [a][1..] == [] && ([a] + rest)[1..] == rest;
  }

  lemma ExecTwo(cfg: Config, m: Moment, a: Timed, b: Timed)
    ensures ExecT(cfg, m, [a]) == Moment(m.clock + a.wait, ApplyD(cfg, m.clock + a.wait, m.p, a.step))
    ensures ExecT(cfg, m, [a, b]) == ExecT(cfg, ExecT(cfg, m, [a]), [b])
  {
    ExecCons(cfg, m, a, [b]);
    assert [a, b] == [a] + [b];
  }

  lemma ExecThree(cfg: Config, m: Moment, a: Timed, b: Timed, c: Timed)
    ensures ExecT(cfg, m, [a, b, c]) == ExecT(cfg, ExecT(cfg, m, [a, b]), [c])
  {
    var m1 := ExecT(cfg, m, [a]);
    ExecCons(cfg, m, a, [b, c]);
    assert [a, b, c] == [a] + [b, c];
    ExecTwo(cfg, m, a, b);
    ExecTwo(cfg, m1, b, c);
  }

  function Rest(p: Progress, tail: seq<Snap>): Moment {
    Moment(p.clock, Pipe(p.rows, if p.raised then Idle else Draining(tail)))
  }

  lemma HandlerIsAStep(cfg: Config, clock: int, rows: Outbox, snap: Snap, tail: seq<Snap>, ran: bool, since: int,
                       took: nat, handled: bool)
    requires since <= clock + took
    ensures ExecT(cfg, Moment(clock, Pipe(rows, Executed(snap, false, ran, since, tail))),
                  [Timed(took, Mark(handled, clock + took))])
         == Rest(HandleFailure(cfg, clock + took, rows, snap, ran, handled), tail)
  {
    var m := Moment(clock, Pipe(rows, Executed(snap, false, ran, since, tail)));
    var step := Timed(took, Mark(handled, clock + took));
    ExecTwo(cfg, m, step, step);
  }

  lemma ExecuteIsAStep(cfg: Config, clock: int, rows: Outbox, snap: Snap, tail: seq<Snap>, call: AdapterCall)
    requires snap.retry < cfg.maxRetries && ProviderName(snap.provider) in cfg.providers
    ensures ExecT(cfg, Moment(clock, Pipe(rows, Draining([snap] + tail))), [Timed(0, Execute(call))])
         == Moment(clock, Pipe(Update(rows, snap.cid, NoteAttempt(AttemptOf(cfg, clock, snap, call))),
                               Executed(snap, CallOk(cfg, call), true, clock, tail)))
  {
    assert ([snap] + tail)[1..] == tail;
    ExecTwo(cfg, Moment(clock, Pipe(rows, Draining([snap] + tail))), Timed(0, Execute(call)), Timed(0, Execute(call)));
  }

  lemma UnmarkedIsAStep(cfg: Config, clock: int, rows: Outbox, snap: Snap, tail: seq<Snap>, took: nat)
    ensures ExecT(cfg, Moment(clock, Pipe(rows, Executed(snap, true, true, clock, tail))),
                  [Timed(took, Mark(false, clock + took))])
         == Moment(clock + took, Pipe(Update(rows, snap.cid, NoteUnmarked), Executed(snap, false, true, clock, tail)))
  {
    var m := Moment(clock, Pipe(rows, Executed(snap, true, true, clock, tail)));
    var step := Timed(took, Mark(false, clock + took));
    ExecTwo(cfg, m, step, step);
  }

  lemma FailedCallIsARun(cfg: Config, clock: int, rows: Outbox, snap: Snap, tail: seq<Snap>, o: Outcome)
    requires snap.retry < cfg.maxRetries && o.builds && ProviderName(snap.provider) in cfg.providers
             && !CallOk(cfg, o.call)
    ensures ExecT(cfg, Moment(clock, Pipe(rows, Draining([snap] + tail))), StepsFor(cfg, clock, snap, o))
         == Rest(ProcessOne(cfg, clock, rows, snap, o), tail)
  {
    var m := Moment(clock, Pipe(rows, Draining([snap] + tail)));
    var ran := Update(rows, snap.cid, NoteAttempt(AttemptOf(cfg, clock, snap, o.call)));
    ExecuteIsAStep(cfg, clock, rows, snap, tail, o.call);
    ExecTwo(cfg, m, Timed(0, Execute(o.call)), Timed(o.took, Mark(o.handled, clock + o.took)));
    HandlerIsAStep(cfg, clock, ran, snap, tail, true, clock, o.took, o.handled);
  }

  lemma MarkedCallIsARun(cfg: Config, clock: int, rows: Outbox, snap: Snap, tail: seq<Snap>, o: Outcome)
    requires snap.retry < cfg.maxRetries && o.builds && ProviderName(snap.provider) in cfg.providers
             && CallOk(cfg, o.call) && o.commits
    ensures ExecT(cfg, Moment(clock, Pipe(rows, Draining([snap] + tail))), StepsFor(cfg, clock, snap, o))
         == Rest(ProcessOne(cfg, clock, rows, snap, o), tail)
  {
    var m, mark := Moment(clock, Pipe(rows, Draining([snap] + tail))), Timed(o.took, Mark(true, clock + o.took));
    ExecuteIsAStep(cfg, clock, rows, snap, tail, o.call);
    ExecTwo(cfg, m, Timed(0, Execute(o.call)), mark);
    ExecTwo(cfg, ExecT(cfg, m, [Timed(0, Execute(o.call))]), mark, mark);
  }

  lemma UnmarkedCallIsARun(cfg: Config, clock: int, rows: Outbox, snap: Snap, tail: seq<Snap>, o: Outcome)
    requires snap.retry < cfg.maxRetries && o.builds && ProviderName(snap.provider) in cfg.providers
             && CallOk(cfg, o.call) && !o.commits
    ensures ExecT(cfg, Moment(clock, Pipe(rows, Draining([snap] + tail))), StepsFor(cfg, clock, snap, o))
         == Rest(ProcessOne(cfg, clock, rows, snap, o), tail)
  {
    var m, later := Moment(clock, Pipe(rows, Draining([snap] + tail))), clock + o.took;
    var ran := Update(rows, snap.cid, NoteAttempt(AttemptOf(cfg, clock, snap, o.call)));
    var exec, mark := Timed(0, Execute(o.call)), Timed(o.took, Mark(false, later));
    ExecuteIsAStep(cfg, clock, rows, snap, tail, o.call);
    ExecTwo(cfg, m, exec, mark);
    UnmarkedIsAStep(cfg, clock, ran, snap, tail, o.took);
    ExecThree(cfg, m, exec, mark, Timed(0, Mark(o.handled, later)));
    HandlerIsAStep(cfg, later, Update(ran, snap.cid, NoteUnmarked), snap, tail, true, clock, 0, o.handled);
  }

  /** Processing a command, whatever fails in it, is a run of DrainerProtocol's steps. */
  lemma ProcessOneIsARun(cfg: Config, clock: int, rows: Outbox, snap: Snap, tail: seq<Snap>, o: Outcome)
    ensures ExecT(cfg, Moment(clock, Pipe(rows, Draining([snap] + tail))), StepsFor(cfg, clock, snap, o))
         == Rest(ProcessOne(cfg, clock, rows, snap, o), tail)
  {
    var m, steps := Moment(clock, Pipe(rows, Draining([snap] + tail))), StepsFor(cfg, clock, snap, o);
    assert ([snap] + tail)[1..] == tail;
    if snap.retry < cfg.maxRetries && o.builds && ProviderName(snap.provider) in cfg.providers {
      if !CallOk(cfg, o.call) {
        FailedCallIsARun(cfg, clock, rows, snap, tail, o);
      } else if o.commits {
        MarkedCallIsARun(cfg, clock, rows, snap, tail, o);
      } else {
        UnmarkedCallIsARun(cfg, clock, rows, snap, tail, o);
      }
    } else if |steps| == 1 {
      ExecTwo(cfg, m, steps[0], steps[0]);
    } else {
      ExecTwo(cfg, m, Timed(0, PrepareFails), Timed(0, Mark(o.handled, clock)));
      HandlerIsAStep(cfg, clock, rows, snap, tail, false, clock, 0, o.handled);
    }
  }

  lemma LaterStepKeepsPipe(cfg: Config, clock: int, later: int, p: Pipe, step: DStep)
    requires PipeInv(cfg, clock, p) && clock <= later
    ensures PipeInv(cfg, later, ApplyD(cfg, later, p, step))
  {
    TickKeepsPipe(cfg, clock, later, p);
    DStepKeepsPipe(cfg, later, p, step);
  }

  lemma {:induction false} ExecTKeepsPipe(cfg: Config, m: Moment, steps: seq<Timed>)
    requires PipeInv(cfg, m.clock, m.p)
    ensures var m' := ExecT(cfg, m, steps);
            PipeInv(cfg, m'.clock, m'.p) && m.clock <= m'.clock
    decreases |steps|
  {
    if |steps| > 0 {
      var clock := m.clock + steps[0].wait;
      LaterStepKeepsPipe(cfg, m.clock, clock, m.p, steps[0].step);
      ExecTKeepsPipe(cfg, Moment(clock, ApplyD(cfg, clock, m.p, steps[0].step)), steps[1..]);
    }
  }

  lemma ProcessOneKeepsPipe(cfg: Config, clock: int, rows: Outbox, queue: seq<Snap>, o: Outcome)
    requires PipeInv(cfg, clock, Pipe(rows, Draining(queue))) && |queue| > 0
    ensures var m := Rest(ProcessOne(cfg, clock, rows, queue[0], o), queue[1..]);
            PipeInv(cfg, m.clock, m.p) && clock <= m.clock
  {
    assert queue == [queue[0]] + queue[1..];
    ProcessOneIsARun(cfg, clock, rows, queue[0], queue[1..], o);
    ExecTKeepsPipe(cfg, Moment(clock, Pipe(rows, Draining(queue))), StepsFor(cfg, clock, queue[0], o));
  }

  // ------------------------------------------------------------------- drain measure

  /** Attempts a pending row may still take, plus the one that closes it. */
  function RowWork(cfg: Config, row: OutboxRow): nat {
    if row.status.Pending? && row.retry <= cfg.maxRetries then cfg.maxRetries - row.retry + 1 else 0
  }

  function Work(cfg: Config, rows: Outbox): nat {
    if |rows| == 0 then 0 else Work(cfg, rows[..|rows| - 1]) + RowWork(cfg, rows[|rows| - 1])
  }

  lemma {:induction false} WorkReplace(cfg: Config, rows: Outbox, i: nat, row: OutboxRow)
    requires i < |rows|
    ensures Work(cfg, rows[i := row]) == Work(cfg, rows) - RowWork(cfg, rows[i]) + RowWork(cfg, row)
    ensures Work(cfg, rows) >= RowWork(cfg, rows[i])
  {
    var n := |rows| - 1;
    if i == n {
      assert rows[i := row][..n] == rows[..n];
    } else {
      assert rows[i := row][..n] == rows[..n][i := row];
      WorkReplace(cfg, rows[..n], i, row);
    }
  }

  /** The row moves on, if no commit fails: it is given up, or cannot even be turned into a
    * command, or its provider has an adapter. */
  predicate Served(cfg: Config, snap: Snap, o: Outcome) {
    snap.retry >= cfg.maxRetries || !o.builds || ProviderName(snap.provider) in cfg.providers
  }

  /** row' replaces a row of the batch, and is no further from its end. */
  ghost predicate RowMoves(cfg: Config, row: OutboxRow, row': OutboxRow, snap: Snap, o: Outcome) {
    && SameCommand(row, row') && RowWork(cfg, row') <= RowWork(cfg, row)
    && (NoFault(o) && Served(cfg, snap, o) ==> RowWork(cfg, row') < RowWork(cfg, row))
    && (NoFault(o) && !Served(cfg, snap, o) ==> row' == row)
  }

  lemma HandlerMoves(cfg: Config, clock: int, rows: Outbox, snap: Snap, ran: bool,
                      handled: bool)
    returns (row': OutboxRow)
    requires UniqueCids(rows) && snap.row < |rows| && rows[snap.row].cid == snap.cid
    requires rows[snap.row].status.Pending? && rows[snap.row].retry == snap.retry < cfg.maxRetries
    ensures HandleFailure(cfg, clock, rows, snap, ran, handled).rows == rows[snap.row := row']
    ensures SameCommand(rows[snap.row], row') && RowWork(cfg, row') <= RowWork(cfg, rows[snap.row])
    ensures handled ==> RowWork(cfg, row') < RowWork(cfg, rows[snap.row])
  {
    var row := rows[snap.row];
    var ch := if handled then FailureChange(cfg, snap, ran, clock) else NoteLost(false);
    UpdateOne(rows, snap.row, ch);
    row' := if handled || ran then Changed(row, ch) else row;
  }

  lemma ProcessOneMoves(cfg: Config, clock: int, rows: Outbox, snap: Snap, o: Outcome) returns (row': OutboxRow)
    requires UniqueCids(rows) && SnapOk(rows, clock, snap) && (snap.retry < cfg.maxRetries || snap.retry == 0)
    ensures ProcessOne(cfg, clock, rows, snap, o).rows == rows[snap.row := row']
    ensures RowMoves(cfg, rows[snap.row], row', snap, o)
  {
    var i, row := snap.row, rows[snap.row];
    if snap.retry >= cfg.maxRetries {
      UpdateOne(rows, i, MarkDeadLettered);
      row' := if o.commits then Changed(row, MarkDeadLettered) else row;
    } else if !o.builds {
      row' := HandlerMoves(cfg, clock, rows, snap, false, o.handled);
    } else if ProviderName(snap.provider) !in cfg.providers {
      row' := row;
    } else {
      row' := DeliveryMoves(cfg, clock, rows, snap, o);
    }
  }

  lemma DeliveryMoves(cfg: Config, clock: int, rows: Outbox, snap: Snap, o: Outcome) returns (row': OutboxRow)
    requires UniqueCids(rows) && SnapOk(rows, clock, snap) && snap.retry < cfg.maxRetries
    requires o.builds && ProviderName(snap.provider) in cfg.providers
    ensures ProcessOne(cfg, clock, rows, snap, o).rows == rows[snap.row := row']
    ensures RowMoves(cfg, rows[snap.row], row', snap, o)
  {
    var i, later := snap.row, clock + o.took;
    var note := NoteAttempt(AttemptOf(cfg, clock, snap, o.call));
    UpdateOne(rows, i, note);
    var ran := rows[i := Changed(rows[i], note)];
    if !CallOk(cfg, o.call) {
      row' := HandlerMoves(cfg, later, ran, snap, true, o.handled);
    } else if o.commits {
      UpdateOne(ran, i, MarkSent);
      row' := Changed(ran[i], MarkSent);
    } else {
      UpdateOne(ran, i, NoteUnmarked);
      row' := HandlerMoves(cfg, later, ran[i := Changed(ran[i], NoteUnmarked)], snap, true, o.handled);
    }
  }

  predicate AllServed(cfg: Config, queue: seq<Snap>, calls: Snap -> Outcome) {
    forall a :: 0 <= a < |queue| ==> Served(cfg, queue[a], calls(queue[a]))
  }

  predicate AllCommit(queue: seq<Snap>, calls: Snap -> Outcome) {
    forall a :: 0 <= a < |queue| ==> NoFault(calls(queue[a]))
  }

  predicate InQueue(queue: seq<Snap>, i: nat) {
    exists a :: 0 <= a < |queue| && queue[a].row == i
  }

  /** Commands stay the same commands, and rows outside the batch are untouched; if the
    * commits succeed, a fetched row is left as it was exactly if it is not served. */
  ghost predicate Moved(cfg: Config, rows: Outbox, rows': Outbox, queue: seq<Snap>, calls: Snap -> Outcome) {
    && |rows'| == |rows|
    && (forall i :: 0 <= i < |rows| ==> SameCommand(rows[i], rows'[i]))
    && (forall i :: 0 <= i < |rows| && !InQueue(queue, i) ==> rows'[i] == rows[i])
    && (forall a :: 0 <= a < |queue| ==> queue[a].row < |rows|)
    && (AllCommit(queue, calls) ==> forall a :: 0 <= a < |queue| ==>
          (rows'[queue[a].row] == rows[queue[a].row] <==> !Served(cfg, queue[a], calls(queue[a]))))
  }

  /** Work never grows; if the commits succeed and every row is served, it falls by at least
    * the number of rows. */
  ghost predicate Advances(cfg: Config, rows: Outbox, rows': Outbox, queue: seq<Snap>, calls: Snap -> Outcome) {
    && Moved(cfg, rows, rows', queue, calls)
    && Work(cfg, rows') <= Work(cfg, rows)
    && (AllCommit(queue, calls) && AllServed(cfg, queue, calls) ==> Work(cfg, rows') + |queue| <= Work(cfg, rows))
  }

  lemma OneAdvances(cfg: Config, clock: int, rows: Outbox, queue: seq<Snap>, calls: Snap -> Outcome)
    requires PipeInv(cfg, clock, Pipe(rows, Draining(queue))) && |queue| > 0
    ensures Advances(cfg, rows, ProcessOne(cfg, clock, rows, queue[0], calls(queue[0])).rows, queue[..1], calls)
  {
    var snap := queue[0];
    assert SnapOk(rows, clock, snap) && RowOk(cfg, clock, rows[snap.row], Open(Draining(queue), snap.row));
    var row' := ProcessOneMoves(cfg, clock, rows, snap, calls(snap));
    ReplaceAdvances(cfg, rows, snap, row', calls);
    assert queue[..1] == [snap];
  }

  lemma ReplaceAdvances(cfg: Config, rows: Outbox, snap: Snap, row': OutboxRow, calls: Snap -> Outcome)
    requires snap.row < |rows| && RowMoves(cfg, rows[snap.row], row', snap, calls(snap))
    ensures Advances(cfg, rows, rows[snap.row := row'], [snap], calls)
  {
    WorkReplace(cfg, rows, snap.row, row');
    var one := [snap];
    assert one[0] == snap;
    assert AllServed(cfg, one, calls) <==> Served(cfg, snap, calls(snap));
    assert AllCommit(one, calls) <==> NoFault(calls(snap));
    assert forall i: nat :: InQueue(one, i) <==> i == snap.row;
  }

  lemma SplitQueue(cfg: Config, queue: seq<Snap>, calls: Snap -> Outcome)
    requires |queue| > 0
    ensures AllCommit(queue, calls) <==> AllCommit(queue[..1], calls) && AllCommit(queue[1..], calls)
    ensures AllServed(cfg, queue, calls) <==> AllServed(cfg, queue[..1], calls) && AllServed(cfg, queue[1..], calls)
    ensures forall i: nat :: InQueue(queue, i) <==> InQueue(queue[..1], i) || InQueue(queue[1..], i)
  {
    var head, tail := queue[..1], queue[1..];
    assert head[0] == queue[0];
    assert forall a :: 0 <= a < |tail| ==> tail[a] == queue[a + 1];
    assert forall a :: 0 < a < |queue| ==> queue[a] == tail[a - 1];
  }

  lemma MovedTogether(cfg: Config, rows: Outbox, mid: Outbox, rows': Outbox, queue: seq<Snap>, calls: Snap -> Outcome)
    requires |queue| > 0 && Moved(cfg, rows, mid, queue[..1], calls) && Moved(cfg, mid, rows', queue[1..], calls)
    requires forall a, b :: 0 <= a < b < |queue| ==> queue[a].row != queue[b].row
    ensures Moved(cfg, rows, rows', queue, calls)
  {
    var head, tail := queue[..1], queue[1..];
    SplitQueue(cfg, queue, calls);
    assert head[0] == queue[0];
    assert !InQueue(tail, queue[0].row);
    forall a | 0 <= a < |queue|
      ensures queue[a].row < |rows|
      ensures AllCommit(queue, calls) ==>
              (rows'[queue[a].row] == rows[queue[a].row] <==> !Served(cfg, queue[a], calls(queue[a])))
    {
      if a > 0 {
        assert tail[a - 1] == queue[a];
        assert !InQueue(head, queue[a].row);
      }
    }
  }

  lemma AdvancesTogether(cfg: Config, rows: Outbox, mid: Outbox, rows': Outbox, queue: seq<Snap>,
                         calls: Snap -> Outcome)
    requires |queue| > 0 && Advances(cfg, rows, mid, queue[..1], calls) && Advances(cfg, mid, rows', queue[1..], calls)
    requires forall a, b :: 0 <= a < b < |queue| ==> queue[a].row != queue[b].row
    ensures Advances(cfg, rows, rows', queue, calls)
  {
    MovedTogether(cfg, rows, mid, rows', queue, calls);
    SplitQueue(cfg, queue, calls);
  }

  /** A batch that was cut short after its first command. */
  lemma AdvancesCutShort(cfg: Config, rows: Outbox, mid: Outbox, queue: seq<Snap>, calls: Snap -> Outcome)
    requires |queue| > 0 && Advances(cfg, rows, mid, queue[..1], calls) && !NoFault(calls(queue[0]))
    requires forall a :: 0 <= a < |queue| ==> queue[a].row < |rows|
    ensures Advances(cfg, rows, mid, queue, calls)
  {
    SplitQueue(cfg, queue, calls);
  }

  lemma RaisedIsAFault(cfg: Config, clock: int, rows: Outbox, snap: Snap, o: Outcome)
    requires ProcessOne(cfg, clock, rows, snap, o).raised
    ensures !NoFault(o)
  {
  }

  /** What a pass over the batch achieves. */
  ghost predicate PassOk(cfg: Config, clock: int, rows: Outbox, queue: seq<Snap>, calls: Snap -> Outcome, p: Progress) {
    && PipeInv(cfg, p.clock, Pipe(p.rows, Idle)) && clock <= p.clock
    && Advances(cfg, rows, p.rows, queue, calls)
    && (AllCommit(queue, calls) ==> !p.raised)
  }

  lemma PassEndsEarly(cfg: Config, clock: int, rows: Outbox, queue: seq<Snap>, calls: Snap -> Outcome)
    requires PipeInv(cfg, clock, Pipe(rows, Draining(queue))) && |queue| > 0
    requires ProcessOne(cfg, clock, rows, queue[0], calls(queue[0])).raised
    ensures PassOk(cfg, clock, rows, queue, calls, ProcessOne(cfg, clock, rows, queue[0], calls(queue[0])))
  {
    var p := ProcessOne(cfg, clock, rows, queue[0], calls(queue[0]));
    ProcessOneKeepsPipe(cfg, clock, rows, queue, calls(queue[0]));
    OneAdvances(cfg, clock, rows, queue, calls);
    RaisedIsAFault(cfg, clock, rows, queue[0], calls(queue[0]));
    assert forall a :: 0 <= a < |queue| ==> SnapOk(rows, clock, queue[a]);
    AdvancesCutShort(cfg, rows, p.rows, queue, calls);
  }

  lemma PassGoesOn(cfg: Config, clock: int, rows: Outbox, queue: seq<Snap>, calls: Snap -> Outcome, p: Progress)
    requires PipeInv(cfg, clock, Pipe(rows, Draining(queue))) && |queue| > 0
    requires var m := ProcessOne(cfg, clock, rows, queue[0], calls(queue[0]));
             clock <= m.clock && PassOk(cfg, m.clock, m.rows, queue[1..], calls, p)
    ensures PassOk(cfg, clock, rows, queue, calls, p)
  {
    OneAdvances(cfg, clock, rows, queue, calls);
    AdvancesTogether(cfg, rows, ProcessOne(cfg, clock, rows, queue[0], calls(queue[0])).rows, p.rows, queue, calls);
    SplitQueue(cfg, queue, calls);
  }

  /** Each pass keeps the invariant and never adds work.  If its commits succeed it lowers the
    * work by at least the number of rows fetched, provided each is served, and leaves a
    * fetched row unchanged exactly if it is not. */
  lemma {:induction false} PassLowersWork(cfg: Config, clock: int, rows: Outbox, queue: seq<Snap>,
                                          calls: Snap -> Outcome)
    requires PipeInv(cfg, clock, Pipe(rows, Draining(queue)))
    ensures PassOk(cfg, clock, rows, queue, calls, Pass(cfg, clock, rows, queue, calls))
    decreases |queue|
  {
    if |queue| == 0 {
      RelabelKeepsPipe(cfg, clock, Pipe(rows, Draining(queue)), Idle);
    } else {
      var p := ProcessOne(cfg, clock, rows, queue[0], calls(queue[0]));
      if p.raised {
        PassEndsEarly(cfg, clock, rows, queue, calls);
      } else {
        ProcessOneKeepsPipe(cfg, clock, rows, queue, calls(queue[0]));
        PassLowersWork(cfg, p.clock, p.rows, queue[1..], calls);
        PassGoesOn(cfg, clock, rows, queue, calls, Pass(cfg, clock, rows, queue, calls));
      }
    }
  }

  // -------------------------------------------------------------------- it drains dry

  datatype Round = Round(now: int, pick: seq<nat>, calls: Snap -> Outcome)

  function AfterRound(cfg: Config, rows: Outbox, r: Round): Progress
    requires IsFetch(rows, r.now, cfg.batch, r.pick)
  {
    Pass(cfg, r.now, rows, Snaps(rows, r.pick), r.calls)
  }

  /** Polls at any times, each after the last has ended, with nothing new enqueued. */
  ghost predicate Polls(cfg: Config, clock: int, rows: Outbox, rs: seq<Round>, end: Outbox)
    decreases |rs|
  {
    if |rs| == 0 then end == rows
    else
      && clock <= rs[0].now && IsFetch(rows, rs[0].now, cfg.batch, rs[0].pick)
      && var p := AfterRound(cfg, rows, rs[0]);
         Polls(cfg, p.clock, p.rows, rs[1..], end)
  }

  predicate AllHaveAdapters(cfg: Config, rows: Outbox) {
    forall i :: 0 <= i < |rows| ==> ProviderName(rows[i].provider) in cfg.providers
  }

  predicate AnyPending(rows: Outbox) {
    exists i :: 0 <= i < |rows| && rows[i].status.Pending?
  }

  predicate AnyDue(rows: Outbox, now: int) {
    exists i :: 0 <= i < |rows| && Due(rows[i], now)
  }

  ghost predicate Faultless(r: Round) {
    forall snap :: NoFault(r.calls(snap))
  }

  /** Rows fetched by the polls whose commits succeed. */
  ghost function TotalFetched(rs: seq<Round>): nat {
    if |rs| == 0 then 0 else (if Faultless(rs[0]) then |rs[0].pick| else 0) + TotalFetched(rs[1..])
  }

  /** Its commits succeed, and it finds something due if anything is pending. */
  ghost predicate Useful(rows: Outbox, r: Round) {
    Faultless(r) && (AnyPending(rows) ==> AnyDue(rows, r.now))
  }

  ghost function UsefulPolls(cfg: Config, clock: int, rows: Outbox, rs: seq<Round>, end: Outbox): nat
    requires Polls(cfg, clock, rows, rs, end)
    decreases |rs|
  {
    if |rs| == 0 then 0
    else
      var p := AfterRound(cfg, rows, rs[0]);
      (if Useful(rows, rs[0]) then 1 else 0) + UsefulPolls(cfg, p.clock, p.rows, rs[1..], end)
  }

  lemma LaterClock(cfg: Config, clock: int, now: int, rows: Outbox)
    requires PipeInv(cfg, clock, Pipe(rows, Idle)) && clock <= now
    ensures PipeInv(cfg, now, Pipe(rows, Idle))
  {
    TickKeepsPipe(cfg, clock, now, Pipe(rows, Idle));
  }

  lemma AdaptersServe(cfg: Config, rows: Outbox, pick: seq<nat>, calls: Snap -> Outcome)
    requires AllHaveAdapters(cfg, rows) && forall a :: 0 <= a < |pick| ==> pick[a] < |rows|
    ensures AllServed(cfg, Snaps(rows, pick), calls)
  {
  }

  lemma RoundPasses(cfg: Config, clock: int, rows: Outbox, r: Round)
    requires PipeInv(cfg, clock, Pipe(rows, Idle)) && clock <= r.now && IsFetch(rows, r.now, cfg.batch, r.pick)
    ensures PassOk(cfg, r.now, rows, Snaps(rows, r.pick), r.calls, AfterRound(cfg, rows, r))
  {
    LaterClock(cfg, clock, r.now, rows);
    FetchKeepsPipe(cfg, r.now, Pipe(rows, Idle), r.pick, r.now);
    PassLowersWork(cfg, r.now, rows, Snaps(rows, r.pick), r.calls);
  }

  lemma RoundKeepsPipe(cfg: Config, clock: int, rows: Outbox, r: Round)
    requires PipeInv(cfg, clock, Pipe(rows, Idle)) && clock <= r.now && IsFetch(rows, r.now, cfg.batch, r.pick)
    requires AllHaveAdapters(cfg, rows)
    ensures var p := AfterRound(cfg, rows, r);
            PipeInv(cfg, p.clock, Pipe(p.rows, Idle)) && |p.rows| == |rows| && AllHaveAdapters(cfg, p.rows)
  {
    RoundPasses(cfg, clock, rows, r);
    var rows' := AfterRound(cfg, rows, r).rows;
    assert forall i :: 0 <= i < |rows| ==> SameCommand(rows[i], rows'[i]);
  }

  /** One poll: work never grows, and falls by the rows fetched unless a commit failed. */
  lemma RoundLowersWork(cfg: Config, clock: int, rows: Outbox, r: Round)
    requires PipeInv(cfg, clock, Pipe(rows, Idle)) && clock <= r.now && IsFetch(rows, r.now, cfg.batch, r.pick)
    requires AllHaveAdapters(cfg, rows)
    ensures var rows' := AfterRound(cfg, rows, r).rows;
            && Work(cfg, rows') <= Work(cfg, rows)
            && (Faultless(r) ==> Work(cfg, rows') + |r.pick| <= Work(cfg, rows))
  {
    RoundPasses(cfg, clock, rows, r);
    AdaptersServe(cfg, rows, r.pick, r.calls);
    assert Faultless(r) ==> AllCommit(Snaps(rows, r.pick), r.calls);
  }

  /** Whenever the polls come: the rows they fetch, all faultless polls together, are at most
    * the work there was, and what is left is the work still to do. */
  lemma {:induction false} FetchesAreBounded(cfg: Config, clock: int, rows: Outbox, rs: seq<Round>, end: Outbox)
    requires PipeInv(cfg, clock, Pipe(rows, Idle)) && Polls(cfg, clock, rows, rs, end) && AllHaveAdapters(cfg, rows)
    ensures Work(cfg, end) + TotalFetched(rs) <= Work(cfg, rows) && |end| == |rows|
    decreases |rs|
  {
    if |rs| > 0 {
      RoundKeepsPipe(cfg, clock, rows, rs[0]);
      RoundLowersWork(cfg, clock, rows, rs[0]);
      var p := AfterRound(cfg, rows, rs[0]);
      FetchesAreBounded(cfg, p.clock, p.rows, rs[1..], end);
    }
  }

  lemma {:induction false} NoWorkMeansTerminal(cfg: Config, rows: Outbox)
    requires forall i :: 0 <= i < |rows| ==> rows[i].retry <= cfg.maxRetries
    ensures Work(cfg, rows) == 0 <==> !AnyPending(rows)
  {
    if |rows| > 0 {
      var init := rows[..|rows| - 1];
      NoWorkMeansTerminal(cfg, init);
      assert forall i :: 0 <= i < |init| ==> init[i] == rows[i];
    }
  }

  lemma DueIsFetched(rows: Outbox, now: int, batch: nat, pick: seq<nat>)
    requires IsFetch(rows, now, batch, pick) && batch > 0 && AnyDue(rows, now)
    ensures |pick| > 0
  {
    var i :| 0 <= i < |rows| && Due(rows[i], now);
    assert i in pick || |pick| == batch;
  }

  lemma RetriesBounded(cfg: Config, clock: int, rows: Outbox)
    requires PipeInv(cfg, clock, Pipe(rows, Idle))
    ensures forall i :: 0 <= i < |rows| ==> rows[i].retry <= cfg.maxRetries
  {
    assert forall i :: 0 <= i < |rows| ==> RowOk(cfg, clock, rows[i], Open(Idle, i));
  }

  function Less(work: nat, useful: bool): nat {
    if useful && work > 0 then work - 1 else work
  }

  /** A useful poll leaves less work, if there was any. */
  lemma UsefulRound(cfg: Config, rows: Outbox, rows': Outbox, r: Round)
    requires IsFetch(rows, r.now, cfg.batch, r.pick) && cfg.batch > 0
    requires forall i :: 0 <= i < |rows| ==> rows[i].retry <= cfg.maxRetries
    requires Work(cfg, rows') <= Work(cfg, rows) && (Faultless(r) ==> Work(cfg, rows') + |r.pick| <= Work(cfg, rows))
    ensures Work(cfg, rows') <= Less(Work(cfg, rows), Useful(rows, r))
  {
    NoWorkMeansTerminal(cfg, rows);
    if Useful(rows, r) && AnyPending(rows) {
      DueIsFetched(rows, r.now, cfg.batch, r.pick);
    }
  }

  lemma PollStep(cfg: Config, clock: int, rows: Outbox, r: Round)
    requires PipeInv(cfg, clock, Pipe(rows, Idle)) && clock <= r.now && IsFetch(rows, r.now, cfg.batch, r.pick)
    requires AllHaveAdapters(cfg, rows) && cfg.batch > 0
    ensures Work(cfg, AfterRound(cfg, rows, r).rows) <= Less(Work(cfg, rows), Useful(rows, r))
  {
    RoundLowersWork(cfg, clock, rows, r);
    RetriesBounded(cfg, clock, rows);
    UsefulRound(cfg, rows, AfterRound(cfg, rows, r).rows, r);
  }

  lemma {:induction false} WorkRunsOut(cfg: Config, clock: int, rows: Outbox, rs: seq<Round>, end: Outbox)
    requires PipeInv(cfg, clock, Pipe(rows, Idle)) && Polls(cfg, clock, rows, rs, end)
    requires AllHaveAdapters(cfg, rows) && cfg.batch > 0
    ensures Work(cfg, end) == 0 || Work(cfg, end) + UsefulPolls(cfg, clock, rows, rs, end) <= Work(cfg, rows)
    decreases |rs|
  {
    if |rs| > 0 {
      PollStep(cfg, clock, rows, rs[0]);
      RoundKeepsPipe(cfg, clock, rows, rs[0]);
      var p := AfterRound(cfg, rows, rs[0]);
      WorkRunsOut(cfg, p.clock, p.rows, rs[1..], end);
    }
  }

  lemma {:induction false} PollsKeepPipe(cfg: Config, clock: int, rows: Outbox, rs: seq<Round>, end: Outbox)
    returns (late: int)
    requires PipeInv(cfg, clock, Pipe(rows, Idle)) && Polls(cfg, clock, rows, rs, end) && AllHaveAdapters(cfg, rows)
    ensures PipeInv(cfg, late, Pipe(end, Idle)) && |end| == |rows|
    decreases |rs|
  {
    late := clock;
    if |rs| > 0 {
      RoundKeepsPipe(cfg, clock, rows, rs[0]);
      var p := AfterRound(cfg, rows, rs[0]);
      late := PollsKeepPipe(cfg, p.clock, p.rows, rs[1..], end);
    }
  }

  /** With an adapter for every row, as many useful polls as there is work, among any others,
    * bring every row to a terminal status. */
  lemma DrainsDry(cfg: Config, clock: int, rows: Outbox, rs: seq<Round>, end: Outbox)
    requires PipeInv(cfg, clock, Pipe(rows, Idle)) && Polls(cfg, clock, rows, rs, end)
    requires AllHaveAdapters(cfg, rows) && cfg.batch > 0
    requires UsefulPolls(cfg, clock, rows, rs, end) >= Work(cfg, rows)
    ensures |end| == |rows| && forall i :: 0 <= i < |end| ==> !end[i].status.Pending?
  {
    WorkRunsOut(cfg, clock, rows, rs, end);
    var late := PollsKeepPipe(cfg, clock, rows, rs, end);
    RetriesBounded(cfg, late, end);
    NoWorkMeansTerminal(cfg, end);
  }

  // ------------------------------------------------------------------------- objects

  class OutboxRepository {
    var rows: Outbox

    constructor ()
      ensures rows == []
    {
      rows := [];
    }

    /** A new key adds one pending row; a known key changes nothing, whatever else differs. */
    method EnqueueCommand(tenant: string, key: string, cid: CommandId, provider: string, content: string, now: int)
      returns (inserted: bool)
      modifies this
      ensures inserted <==> !HasKey(old(rows), tenant, key)
      ensures inserted <==> forall i :: 0 <= i < |old(rows)| ==>
              old(rows)[i].tenant != tenant || old(rows)[i].key != key
      ensures !inserted ==> rows == old(rows)
      ensures inserted ==> rows == old(rows) + [NewCommand(tenant, key, cid, provider, content, FromGraph, now)]
      ensures inserted ==>
                var row := rows[|rows| - 1];
                && row.tenant == tenant && row.key == key && row.cid == cid && row.provider == provider
                && row.content == content
                && row.status.Pending? && row.retry == 0 && row.scheduledAt == now
      ensures HasKey(rows, tenant, key)
      ensures UniqueKeys(old(rows)) ==> UniqueKeys(rows)
    {
      inserted := !HasKey(rows, tenant, key);
      rows := Enqueue(rows, NewCommand(tenant, key, cid, provider, content, FromGraph, now));
      assert inserted ==> rows[|rows| - 1].tenant == tenant && rows[|rows| - 1].key == key;
    }

    /** ORDER BY scheduled_at LIMIT limit over the due rows. */
    method FetchPendingAll(now: int, limit: nat) returns (pick: seq<nat>)
      ensures IsFetch(rows, now, limit, pick)
      ensures |pick| <= limit && forall a, b :: 0 <= a < b < |pick| ==> pick[a] != pick[b]
      ensures forall a :: 0 <= a < |pick| ==> pick[a] < |rows|
      ensures forall a, b :: 0 <= a < b < |pick| ==> rows[pick[a]].scheduledAt <= rows[pick[b]].scheduledAt
      ensures forall a :: 0 <= a < |pick| ==> rows[pick[a]].status.Pending? && rows[pick[a]].scheduledAt <= now
      ensures forall i :: 0 <= i < |rows| && rows[i].status.Pending? && rows[i].scheduledAt <= now && i !in pick ==>
                |pick| == limit && forall a :: 0 <= a < |pick| ==> rows[pick[a]].scheduledAt <= rows[i].scheduledAt
    {
      var table := rows;
      pick := Select(|table|, (i: nat) => i < |table| && Due(table[i], now),
                     (i: nat) => if i < |table| then table[i].scheduledAt else 0, limit);
    }

    /** No later fetch, at any time, returns the command. */
    method MarkCommandSent(cid: CommandId)
      modifies this
      ensures rows == Update(old(rows), cid, MarkSent)
      ensures forall i, at :: 0 <= i < |rows| && rows[i].cid == cid ==> rows[i].status.Sent? && !Due(rows[i], at)
      ensures forall i :: 0 <= i < |rows| && rows[i].cid != cid ==> rows[i] == old(rows)[i]
    {
      rows := Update(rows, cid, MarkSent);
    }

    method MarkCommandDead(cid: CommandId)
      modifies this
      ensures rows == Update(old(rows), cid, MarkDeadLettered)
      ensures forall i, at :: 0 <= i < |rows| && rows[i].cid == cid ==>
              rows[i].status.DeadLettered? && !Due(rows[i], at)
      ensures forall i :: 0 <= i < |rows| && rows[i].cid != cid ==> rows[i] == old(rows)[i]
    {
      rows := Update(rows, cid, MarkDeadLettered);
    }

    /** Fetches return the command exactly from now + delay on, with one retry more. */
    method MarkCommandFailedForRetry(cid: CommandId, now: int, delay: nat, executed: bool)
      modifies this
      ensures rows == Update(old(rows), cid, MarkFailedForRetry(now + delay, executed))
      ensures forall i, at :: 0 <= i < |rows| && rows[i].cid == cid ==> (Due(rows[i], at) <==> now + delay <= at)
      ensures forall i :: 0 <= i < |rows| && rows[i].cid == cid ==> rows[i].retry == old(rows)[i].retry + 1
      ensures forall i :: 0 <= i < |rows| && rows[i].cid != cid ==> rows[i] == old(rows)[i]
    {
      rows := Update(rows, cid, MarkFailedForRetry(now + delay, executed));
    }

    /** History: an execution, or a commit that did not happen. */
    method Note(cid: CommandId, ch: Change)
      requires ch.NoteAttempt? || ch.NoteUnmarked? || ch.NoteLost?
      modifies this
      ensures rows == Update(old(rows), cid, ch)
      ensures forall i, at :: 0 <= i < |rows| ==> Due(rows[i], at) == Due(old(rows)[i], at)
    {
      rows := Update(rows, cid, ch);
    }
  }

  class OutboxDrainerWorker {
    const cfg: Config
    const repo: OutboxRepository

    constructor (cfg: Config, repo: OutboxRepository)
      ensures this.cfg == cfg && this.repo == repo
    {
      this.cfg, this.repo := cfg, repo;
    }

    /** The except branch. */
    method Failed(snap: Snap, ran: bool, handled: bool, now: int) returns (raised: bool)
      modifies repo
      ensures Progress(now, repo.rows, raised) == HandleFailure(cfg, now, old(repo.rows), snap, ran, handled)
    {
      if !handled {
        if ran {
          repo.Note(snap.cid, NoteLost(false));
        }
        return true;
      }
      var nextRetry := snap.retry + 1;
      if nextRetry >= cfg.maxRetries {
        repo.MarkCommandDead(snap.cid);
      } else {
        var backoff := 30 * Pow2(snap.retry);
        repo.MarkCommandFailedForRetry(snap.cid, now, backoff, ran);
      }
      raised := false;
    }

    /** From the adapter call on. */
    method Deliver(snap: Snap, o: Outcome, now: int) returns (end: int, raised: bool)
      requires snap.retry < cfg.maxRetries && o.builds && ProviderName(snap.provider) in cfg.providers
      modifies repo
      ensures Progress(end, repo.rows, raised) == ProcessOne(cfg, now, old(repo.rows), snap, o)
    {
      repo.Note(snap.cid, NoteAttempt(AttemptOf(cfg, now, snap, o.call)));
      end, raised := now + o.took, false;
      if CallOk(cfg, o.call) {
        if o.commits {
          repo.MarkCommandSent(snap.cid);
          return;
        }
        repo.Note(snap.cid, NoteUnmarked);
      }
      raised := Failed(snap, true, o.handled, end);
    }

    method ProcessCommand(snap: Snap, o: Outcome, now: int) returns (end: int, raised: bool)
      modifies repo
      ensures Progress(end, repo.rows, raised) == ProcessOne(cfg, now, old(repo.rows), snap, o)
      ensures UniqueCids(old(repo.rows)) && SnapOk(old(repo.rows), now, snap) ==>
                Becomes(cfg, now, old(repo.rows), snap.row, o, Progress(end, repo.rows, raised))
    {
      if UniqueCids(repo.rows) && SnapOk(repo.rows, now, snap) {
        ProcessOneExactly(cfg, now, repo.rows, snap, o);
      }
      end, raised := now, false;
      if snap.retry >= cfg.maxRetries {
        if o.commits {
          repo.MarkCommandDead(snap.cid);
        }
        raised := !o.commits;
      } else if !o.builds {
        raised := Failed(snap, false, o.handled, now);
      } else if ProviderName(snap.provider) in cfg.providers {
        end, raised := Deliver(snap, o, now);
      }
    }

    /** One poll, with any outcomes: the invariant is kept and work never grows; without a
      * failing commit every served row moves on, the others stay, and nothing is raised. */
    method DrainBatch(now: int, calls: Snap -> Outcome) returns (queue: seq<Snap>, end: int, raised: bool)
      requires PipeInv(cfg, now, Pipe(repo.rows, Idle))
      modifies repo
      ensures PipeInv(cfg, end, Pipe(repo.rows, Idle)) && now <= end
      ensures |queue| <= cfg.batch && forall a :: 0 <= a < |queue| ==> SnapOk(old(repo.rows), now, queue[a])
      ensures Advances(cfg, old(repo.rows), repo.rows, queue, calls)
      ensures AllCommit(queue, calls) ==> !raised
      ensures cfg.providers != {} && cfg.batch > 0 && |queue| == 0 ==> !AnyDue(old(repo.rows), now)
    {
      queue, end, raised := [], now, false;
      if cfg.providers == {} {
        return;
      }
      var pick := repo.FetchPendingAll(now, cfg.batch);
      ghost var before := repo.rows;
      queue := Snaps(repo.rows, pick);
      FetchKeepsPipe(cfg, now, Pipe(repo.rows, Idle), pick, now);
      PassLowersWork(cfg, now, before, queue, calls);
      if cfg.batch > 0 && AnyDue(before, now) {
        DueIsFetched(before, now, cfg.batch, pick);
      }
      end, raised := ProcessAll(queue, calls, now);
    }

    method ProcessAll(queue: seq<Snap>, calls: Snap -> Outcome, now: int) returns (end: int, raised: bool)
      modifies repo
      ensures Progress(end, repo.rows, raised) == Pass(cfg, now, old(repo.rows), queue, calls)
    {
      end, raised := now, false;
      ghost var before := repo.rows;
      for i := 0 to |queue|
        invariant !raised && Pass(cfg, end, repo.rows, queue[i..], calls) == Pass(cfg, now, before, queue, calls)
      {
        assert queue[i..][0] == queue[i] && queue[i..][1..] == queue[i + 1..];
        end, raised := ProcessCommand(queue[i], calls(queue[i]), end);
        if raised {
          return;
        }
      }
    }
  }
}
