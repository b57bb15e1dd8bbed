/** What the status of an outbox row says about delivery, over every run of the pipeline. */
module DeliveryMarks {
  import opened Basics
  import opened DeliveryTables
  import opened DrainerProtocol
  import opened Delivery
  import opened DeliveryResults

  lemma AppendKeepsMarks(p: Pipe, row: OutboxRow)
    requires MarksOk(p) && IsNew(row) && !Owed(p.d, |p.rows|)
    ensures MarksOk(Pipe(p.rows + [row], p.d))
  {
    var rows' := p.rows + [row];
    forall i | 0 <= i < |rows'|
      ensures RowMarks(rows'[i], Owed(p.d, i))
    {
      assert i < |p.rows| ==> RowMarks(p.rows[i], Owed(p.d, i));
    }
  }

  predicate IsNew(row: OutboxRow) {
    row.log == [] && row.unmarked == 0 && row.status.Pending?
  }

  lemma RowsOnlyAppended(cfg: Config, w: World, step: Step)
    requires !step.Drain?
    ensures var w' := Apply(cfg, w, step);
            && w'.d == w.d
            && (|| w'.rows == w.rows
                || (|w'.rows| == |w.rows| + 1 && w'.rows[..|w.rows|] == w.rows && IsNew(w'.rows[|w.rows|])))
  {
  }

  lemma StepKeepsMarks(cfg: Config, w: World, step: Step)
    requires Inv(cfg, w) && MarksOk(Pipe(w.rows, w.d))
    ensures var w' := Apply(cfg, w, step);
            MarksOk(Pipe(w'.rows, w'.d))
  {
    var w', p := Apply(cfg, w, step), Pipe(w.rows, w.d);
    if step.Drain? {
      DStepKeepsMarks(cfg, w.clock, p, step.ds);
    } else {
      RowsOnlyAppended(cfg, w, step);
      assert p.d.Executed? ==> p.d.snap.row < |p.rows|;
      if w'.rows != w.rows {
        AppendKeepsMarks(p, w'.rows[|w.rows|]);
        assert w'.rows == w.rows + [w'.rows[|w.rows|]];
      }
    }
  }

  lemma {:induction false} ExecKeepsMarks(cfg: Config, clock: int, steps: seq<Step>)
    ensures var w := Exec(cfg, Begin(clock), steps);
            MarksOk(Pipe(w.rows, w.d))
  {
    if |steps| > 0 {
      var init := steps[..|steps| - 1];
      ExecKeepsMarks(cfg, clock, init);
      ExecKeepsInv(cfg, clock, init);
      StepKeepsMarks(cfg, Exec(cfg, Begin(clock), init), steps[|steps| - 1]);
    }
  }

  lemma {:induction false} ExecKeepsLogs(cfg: Config, clock: int, steps: seq<Step>)
    ensures TrueLogs(cfg, Exec(cfg, Begin(clock), steps).rows)
  {
    if |steps| > 0 {
      var init, last := steps[..|steps| - 1], steps[|steps| - 1];
      var w := Exec(cfg, Begin(clock), init);
      ExecKeepsLogs(cfg, clock, init);
      if last.Drain? {
        DStepKeepsLogs(cfg, w.clock, Pipe(w.rows, w.d), last.ds);
      } else {
        RowsOnlyAppended(cfg, w, last);
        var w' := Apply(cfg, w, last);
        assert forall i :: 0 <= i < |w.rows| ==> w'.rows[i] == w'.rows[..|w.rows|][i];
      }
    }
  }

  predicate Delivered(row: OutboxRow) {
    exists k :: 0 <= k < |row.log| && row.log[k].ok
  }

  /** In every run: the last call of a row marked sent landed; the history tells truly which
    * calls landed and how many POSTs they made; deliveries are exactly those marked, those whose
    * mark_sent commit failed or was lost, and the one the drainer still holds; so a row at rest
    * is delivered and not sent if and only if such a commit failed or was lost for it and none
    * has succeeded. */
  lemma SentMeansDelivered(cfg: Config, clock: int, steps: seq<Step>, row: nat)
    requires row < |Exec(cfg, Begin(clock), steps).rows|
    ensures var w := Exec(cfg, Begin(clock), steps);
            var r := w.rows[row];
            && (r.status.Sent? ==> |r.log| > 0 && Lands(cfg.mcpRetries, Last(r.log).call))
            && (forall k :: 0 <= k < |r.log| ==> (r.log[k].ok <==> Lands(cfg.mcpRetries, r.log[k].call)))
            && (forall k :: 0 <= k < |r.log| ==> MakesPosts(cfg.mcpRetries, r.log[k].call, r.log[k].posts))
            && Deliveries(r.log) == r.unmarked + (if r.status.Sent? then 1 else 0) + (if Owed(w.d, row) then 1 else 0)
            && (!Open(w.d, row) ==> (Delivered(r) && !r.status.Sent? <==> r.unmarked > 0 && !r.status.Sent?))
            && (r.unmarked == 0 && !Open(w.d, row) ==> (Delivered(r) <==> r.status.Sent?))
  {
    var w := Exec(cfg, Begin(clock), steps);
    ExecKeepsMarks(cfg, clock, steps);
    assert RowMarks(w.rows[row], Owed(w.d, row));
    SomeDelivery(w.rows[row].log);
    ExecKeepsLogs(cfg, clock, steps);
    assert TrueLog(cfg, w.rows[row].log);
    assert forall k :: 0 <= k < |w.rows[row].log| ==> TrueRecord(cfg, w.rows[row].log[k]);
  }

  // ------------------------------------------------------------- delivered is not sent

  predicate CanDeliver(cfg: Config, provider: string) {
    cfg.batch > 0 && cfg.maxRetries > 0 && provider != "" && provider in cfg.providers
  }

  /** One pending row that is due, at retry count k, and a drainer at rest. */
  predicate Waits(clock: int, p: Pipe, provider: string, k: nat) {
    && |p.rows| == 1 && Resting(p.d)
    && var r := p.rows[0];
       && r.status.Pending? && r.retry == k && r.scheduledAt <= clock && r.provider == provider
       && (k > 0 ==> Delivered(r))
  }

  /** The row at rest has been delivered, and its status is not sent. */
  predicate Unmarked(p: Pipe, st: Status) {
    |p.rows| == 1 && p.rows[0].status == st && Delivered(p.rows[0]) && Resting(p.d)
  }

  lemma FetchesIt(cfg: Config, clock: int, p: Pipe, provider: string, k: nat)
    requires CanDeliver(cfg, provider) && Waits(clock, p, provider, k)
    ensures var p' := ApplyD(cfg, clock, p, Fetch([0], clock));
            p' == Pipe(p.rows, Draining([Snap(0, p.rows[0].cid, k, provider)]))
  {
    assert IsFetch(p.rows, clock, cfg.batch, [0]);
    assert Snaps(p.rows, [0]) == [Snap(0, p.rows[0].cid, k, provider)];
  }

  /** The adapter delivers, the mark_sent commit fails, the handler's commit succeeds. */
  lemma DeliversUnmarked(cfg: Config, clock: int, r: OutboxRow, snap: Snap)
    requires snap.row == 0 && snap.cid == r.cid && snap.provider == r.provider && snap.retry < cfg.maxRetries
    requires CanDeliver(cfg, snap.provider)
    ensures var p1 := ApplyD(cfg, clock, Pipe([r], Draining([snap])), Execute(Foreign(true)));
            var p3 := ApplyD(cfg, clock, ApplyD(cfg, clock, p1, Mark(false, clock)), Mark(true, clock));
            && |p3.rows| == 1 && p3.d == Draining([]) && Delivered(p3.rows[0]) && p3.rows[0].provider == r.provider
            && (snap.retry + 1 >= cfg.maxRetries ==> p3.rows[0].status.DeadLettered?)
            && (snap.retry + 1 < cfg.maxRetries ==>
                  p3.rows[0].status.Pending? && p3.rows[0].retry == r.retry + 1
                    && p3.rows[0].scheduledAt == clock + Backoff(snap.retry))
  {
    var a := AttemptOf(cfg, clock, snap, Foreign(true));
    var p1 := ApplyD(cfg, clock, Pipe([r], Draining([snap])), Execute(Foreign(true)));
    var r1 := Changed(r, NoteAttempt(a));
    assert [snap][1..] == [];
    assert p1 == Pipe([r1], Executed(snap, true, true, clock, []));
    var r2 := Changed(r1, NoteUnmarked);
    var p2 := ApplyD(cfg, clock, p1, Mark(false, clock));
    assert p2 == Pipe([r2], Executed(snap, false, true, clock, []));
    var r3 := Changed(r2, FailureChange(cfg, snap, true, clock));
    assert ApplyD(cfg, clock, p2, Mark(true, clock)) == Pipe([r3], Draining([]));
    assert r3.log[|r.log|].ok;
  }

  function UnmarkedRound(clock: int): seq<Step> {
    [Drain(Fetch([0], clock)), Drain(Execute(Foreign(true))), Drain(Mark(false, clock)), Drain(Mark(true, clock))]
  }

  lemma ExecFour(cfg: Config, w: World, steps: seq<Step>)
    requires |steps| == 4
    ensures Exec(cfg, w, steps)
            == Apply(cfg, Apply(cfg, Apply(cfg, Apply(cfg, w, steps[0]), steps[1]), steps[2]), steps[3])
  {
    var one, two, three := [steps[0]], [steps[0], steps[1]], [steps[0], steps[1], steps[2]];
    assert steps == three + [steps[3]] && three == two + [steps[2]] && two == one + [steps[1]]
           && one == [] + [steps[0]];
    ExecSnoc(cfg, w, [], steps[0]);
    ExecSnoc(cfg, w, one, steps[1]);
    ExecSnoc(cfg, w, two, steps[2]);
    ExecSnoc(cfg, w, three, steps[3]);
  }

  lemma RoundLeavesUnmarked(cfg: Config, w: World, provider: string, k: nat)
    requires CanDeliver(cfg, provider) && Waits(w.clock, Pipe(w.rows, w.d), provider, k) && k < cfg.maxRetries
    ensures var w' := Exec(cfg, w, UnmarkedRound(w.clock));
            && w'.clock == w.clock
            && Unmarked(Pipe(w'.rows, w'.d), if k + 1 < cfg.maxRetries then Pending else DeadLettered)
            && (k + 1 < cfg.maxRetries ==> Waits(w.clock + Backoff(k), Pipe(w'.rows, w'.d), provider, k + 1))
  {
    var p := Pipe(w.rows, w.d);
    var snap := Snap(0, w.rows[0].cid, k, provider);
    ExecFour(cfg, w, UnmarkedRound(w.clock));
    FetchesIt(cfg, w.clock, p, provider, k);
    assert w.rows == [w.rows[0]];
    DeliversUnmarked(cfg, w.clock, w.rows[0], snap);
  }

  /** A new command for this provider, due at once. */
  function NewRow(provider: string): seq<Step> {
    [GraphCommand("t", "k", 0, provider, "")]
  }

  lemma NewRowWaits(cfg: Config, provider: string)
    ensures var w := Exec(cfg, Begin(0), NewRow(provider));
            Waits(w.clock, Pipe(w.rows, w.d), provider, 0)
  {
    var w, step := Begin(0), NewRow(provider)[0];
    assert [] + NewRow(provider) == NewRow(provider);
    ExecSnoc(cfg, w, [], step);
    assert Exec(cfg, w, []) == w;
    assert !HasKey([], "t", "k") && !CidUsed([], Uuid(0));
  }

  lemma {:induction false} WaitsAfter(cfg: Config, provider: string, k: nat) returns (steps: seq<Step>)
    requires CanDeliver(cfg, provider) && k < cfg.maxRetries
    ensures var w := Exec(cfg, Begin(0), steps);
            Waits(w.clock, Pipe(w.rows, w.d), provider, k)
  {
    if k == 0 {
      steps := NewRow(provider);
      NewRowWaits(cfg, provider);
    } else {
      var before := WaitsAfter(cfg, provider, k - 1);
      var w := Exec(cfg, Begin(0), before);
      RoundLeavesUnmarked(cfg, w, provider, k - 1);
      ExecAppend(cfg, Begin(0), before, UnmarkedRound(w.clock));
      steps := before + UnmarkedRound(w.clock) + [Tick(Backoff(k - 1))];
      ExecSnoc(cfg, Begin(0), before + UnmarkedRound(w.clock), Tick(Backoff(k - 1)));
    }
  }

  /** Whatever the retry limit: a run that dead-letters a command its adapter delivered. */
  lemma DeadLetteredThoughDelivered(cfg: Config, provider: string) returns (steps: seq<Step>)
    requires CanDeliver(cfg, provider)
    ensures var w := Exec(cfg, Begin(0), steps);
            |w.rows| == 1 && w.rows[0].status.DeadLettered? && Delivered(w.rows[0]) && !Open(w.d, 0)
  {
    var before := WaitsAfter(cfg, provider, cfg.maxRetries - 1);
    var w := Exec(cfg, Begin(0), before);
    RoundLeavesUnmarked(cfg, w, provider, cfg.maxRetries - 1);
    ExecAppend(cfg, Begin(0), before, UnmarkedRound(w.clock));
    steps := before + UnmarkedRound(w.clock);
  }

  /** In every run, a row at rest that was delivered is marked sent. */
  ghost predicate DeliveredIsSent(cfg: Config) {
    forall clock, steps, row: nat :: SentIfDelivered(Exec(cfg, Begin(clock), steps), row)
  }

  predicate SentIfDelivered(w: World, row: nat) {
    row < |w.rows| && Delivered(w.rows[row]) && !Open(w.d, row) ==> w.rows[row].status.Sent?
  }

  /** Nothing has ever been executed, and nothing that could be is in the batch. */
  predicate NeverRan(cfg: Config, p: Pipe) {
    && (forall i :: 0 <= i < |p.rows| ==> p.rows[i].log == [])
    && (p.d.Executed? ==> !p.d.ran) && (cfg.batch == 0 ==> QueueOf(p.d) == [])
  }

  lemma MarkNeverRuns(cfg: Config, clock: int, p: Pipe, commit: bool, at: int)
    requires PipeInv(cfg, clock, p) && NeverRan(cfg, p) && p.d.Executed?
    ensures NeverRan(cfg, ApplyMark(cfg, clock, p, commit, at))
  {
    UpdateOne(p.rows, p.d.snap.row, FailureChange(cfg, p.d.snap, false, at));
  }

  lemma DStepNeverRuns(cfg: Config, clock: int, p: Pipe, ds: DStep)
    requires PipeInv(cfg, clock, p) && NeverRan(cfg, p) && forall provider :: !CanDeliver(cfg, provider)
    ensures NeverRan(cfg, ApplyD(cfg, clock, p, ds))
  {
    match ds
    case Execute(call) =>
      if HeadServed(cfg, p.d) {
        assert CanDeliver(cfg, ProviderName(p.d.queue[0].provider));
        assert false;
      }
    case Mark(commit, at) =>
      if p.d.Executed? {
        MarkNeverRuns(cfg, clock, p, commit, at);
      }
    case _ =>
  }

  lemma StepNeverRuns(cfg: Config, w: World, step: Step)
    requires Inv(cfg, w) && NeverRan(cfg, Pipe(w.rows, w.d)) && forall provider :: !CanDeliver(cfg, provider)
    ensures var w' := Apply(cfg, w, step);
            NeverRan(cfg, Pipe(w'.rows, w'.d))
  {
    if step.Drain? {
      DStepNeverRuns(cfg, w.clock, Pipe(w.rows, w.d), step.ds);
    } else {
      RowsOnlyAppended(cfg, w, step);
    }
  }

  lemma {:induction false} NothingRuns(cfg: Config, clock: int, steps: seq<Step>)
    requires forall provider :: !CanDeliver(cfg, provider)
    ensures var w := Exec(cfg, Begin(clock), steps);
            NeverRan(cfg, Pipe(w.rows, w.d))
  {
    if |steps| > 0 {
      var init := steps[..|steps| - 1];
      NothingRuns(cfg, clock, init);
      ExecKeepsInv(cfg, clock, init);
      StepNeverRuns(cfg, Exec(cfg, Begin(clock), init), steps[|steps| - 1]);
    }
  }

  /** Delivered implies sent in every run only where nothing can be delivered at all: the
    * status is written after the delivery, in a transaction of its own. */
  lemma DeliveredIsSentExactly(cfg: Config)
    ensures DeliveredIsSent(cfg) <==> forall provider :: !CanDeliver(cfg, provider)
  {
    if provider :| CanDeliver(cfg, provider) {
      var steps := DeadLetteredThoughDelivered(cfg, provider);
      assert !SentIfDelivered(Exec(cfg, Begin(0), steps), 0);
    } else {
      forall clock, steps, row: nat
        ensures SentIfDelivered(Exec(cfg, Begin(clock), steps), row)
      {
        NothingRuns(cfg, clock, steps);
      }
    }
  }
}
