/** Leases as JobConsumerWorker uses them: any number of jobs on any number of worker
  * replicas, their database statements interleaved in any order.
  *
  * A job draws its clock reading and token (Begin), reads the table (Read), writes it
  * (Write), runs the graph and releases (Finish).  The reading taken at Begin may be
  * arbitrarily stale when the write happens.  A run is a sequence of steps; a step that
  * is not enabled does nothing, so every sequence is a run and every interleaving,
  * including jobs that crash and never move again, is one of them.
  */
module LeaseProtocol {
  import opened Basics
  import opened LeaseTable

  type JobId = nat

  datatype Config = Config(ttl: nat, freshWorkers: bool)

  datatype Phase = Begun | ToRefresh | ToUpsert | Skipped | Running | Finished

  /** One _handle_job call; now, expires and token are drawn when acquire begins, start is
    * the instant of its successful write and finish that of its release. */
  datatype Job = Job(c: Conversation, w: Worker, token: Token, now: int, expires: int, phase: Phase, start: int,
                     finish: int)
  {
    predicate Granted() { phase.Running? || phase.Finished? }
  }

  datatype State = State(clock: int, rows: Table, jobs: map<JobId, Job>)

  datatype Step =
    | Tick(d: nat)
    | Begin(j: JobId, c: Conversation, w: Worker, token: Token)
    | Read(j: JobId)
    | Write(j: JobId)
    | Finish(j: JobId)

  /** uuid4: a token is drawn once; with freshWorkers, so is the worker id, because
    * _handle_job builds its repository without one. */
  predicate CanBegin(cfg: Config, s: State, j: JobId, w: Worker, token: Token) {
    && j !in s.jobs
    && (forall k <- s.jobs :: s.jobs[k].token != token)
    && (cfg.freshWorkers ==> forall k <- s.jobs :: s.jobs[k].w != w)
  }

  function NewJob(cfg: Config, s: State, c: Conversation, w: Worker, token: Token): Job {
    Job(c, w, token, s.clock, s.clock + cfg.ttl, Begun, 0, 0)
  }

  function AfterRead(t: Table, job: Job): Phase {
    var existing := SelectActive(t, job.c, job.now);
    if existing.None? then ToUpsert
    else if existing.value.worker == job.w then ToRefresh
    else Skipped
  }

  /** Some step j is at phase p. */
  predicate At(s: State, j: JobId, p: Phase) {
    j in s.jobs && s.jobs[j].phase == p
  }

  function ApplyWrite(s: State, j: JobId): State
    requires j in s.jobs
  {
    var job := s.jobs[j];
    var granted := job.(phase := Running, start := s.clock);
    if job.phase.ToRefresh? then
      State(s.clock, Refresh(s.rows, job.c, job.token, job.expires), s.jobs[j := granted])
    else if job.phase.ToUpsert? && CanUpsert(s.rows, job.c, job.now) then
      State(s.clock, Upsert(s.rows, job.c, job.w, job.token, job.now, job.expires), s.jobs[j := granted])
    else if job.phase.ToUpsert? then
      s.(jobs := s.jobs[j := job.(phase := Skipped)])
    else s
  }

  function Apply(cfg: Config, s: State, step: Step): State {
    match step
    case Tick(d) => s.(clock := s.clock + d)
    case Begin(j, c, w, token) =>
      if CanBegin(cfg, s, j, w, token) then s.(jobs := s.jobs[j := NewJob(cfg, s, c, w, token)]) else s
    case Read(j) =>
      if At(s, j, Begun) then s.(jobs := s.jobs[j := s.jobs[j].(phase := AfterRead(s.rows, s.jobs[j]))]) else s
    case Write(j) =>
      if j in s.jobs then ApplyWrite(s, j) else s
    case Finish(j) =>
      if At(s, j, Running) then
        State(s.clock, Release(s.rows, s.jobs[j].c, s.jobs[j].token, s.clock),
              s.jobs[j := s.jobs[j].(phase := Finished, finish := s.clock)])
      else s
  }

  function Init(clock: int): State {
    State(clock, map[], map[])
  }

  function Exec(cfg: Config, s: State, steps: seq<Step>): State {
    if steps == [] then s else Apply(cfg, Exec(cfg, s, steps[..|steps| - 1]), steps[|steps| - 1])
  }

  predicate Valid(s: State, c: Conversation, token: Token) {
    IsValid(s.rows, c, token, s.clock)
  }

  // ---------------------------------------------------------------- any worker ids

  predicate TokensDistinct(s: State) {
    forall i, j :: i in s.jobs && j in s.jobs && i != j ==> s.jobs[i].token != s.jobs[j].token
  }

  predicate ClockSane(s: State) {
    forall j <- s.jobs :: s.jobs[j].now <= s.clock && s.jobs[j].now <= s.jobs[j].expires
      && (s.jobs[j].Granted() ==> s.jobs[j].start <= s.clock)
  }

  predicate Owns(s: State, c: Conversation, j: JobId) {
    && c in s.rows && j in s.jobs && s.jobs[j].Granted() && s.jobs[j].c == c
    && s.jobs[j].token == s.rows[c].token && s.jobs[j].expires == s.rows[c].expiresAt
  }

  ghost predicate RowsOwned(s: State) {
    && (forall c <- s.rows :: exists j :: Owns(s, c, j))
    && (forall j <- s.jobs :: s.jobs[j].Granted() || At(s, j, ToRefresh) ==> s.jobs[j].c in s.rows)
  }

  ghost predicate Inv(cfg: Config, s: State) {
    TokensDistinct(s) && ClockSane(s) && RowsOwned(s)
  }

  lemma OwnerKept(s: State, s': State, c: Conversation, j: JobId)
    requires Owns(s, c, j)
    requires c in s'.rows && s'.rows[c].token == s.rows[c].token && s'.rows[c].expiresAt == s.rows[c].expiresAt
    requires j in s'.jobs && s'.jobs[j].Granted() && s'.jobs[j].c == c
    requires s'.jobs[j].token == s.jobs[j].token && s'.jobs[j].expires == s.jobs[j].expires
    ensures exists k :: Owns(s', c, k)
  {
    assert Owns(s', c, j);
  }

  /** What no step changes about a job, and what it knows about a new one. */
  predicate JobsEvolve(cfg: Config, s: State, s': State) {
    && s.clock <= s'.clock
    && (forall k <- s.jobs :: k in s'.jobs && SameJob(s.jobs[k], s'.jobs[k]))
    && (forall k <- s.jobs :: k in s'.jobs && s'.jobs[k].Granted() && !s.jobs[k].Granted() ==>
        s'.jobs[k].start == s.clock)
    && (forall k <- s'.jobs :: k !in s.jobs ==> FreshJob(cfg, s, k, s'.jobs[k]))
    && (forall k <- s'.jobs, i <- s'.jobs :: k !in s.jobs && i !in s.jobs ==> k == i)
  }

  predicate SameJob(a: Job, b: Job) {
    && a.c == b.c && a.w == b.w && a.token == b.token && a.now == b.now && a.expires == b.expires
    && (a.Granted() ==> b.Granted() && a.start == b.start)
  }

  predicate FreshJob(cfg: Config, s: State, j: JobId, job: Job) {
    CanBegin(cfg, s, j, job.w, job.token) && job.phase == Begun && job.now == s.clock && job.now <= job.expires
  }

  /** At most job j moves on. */
  predicate OnlyJob(s: State, s': State, j: JobId) {
    && j in s.jobs && j in s'.jobs && s'.jobs == s.jobs[j := s'.jobs[j]] && SameJob(s.jobs[j], s'.jobs[j])
    && (s'.jobs[j].Granted() && !s.jobs[j].Granted() ==> s'.jobs[j].start == s.clock) && s'.clock == s.clock
  }

  lemma OneJobEvolves(cfg: Config, s: State, s': State, j: JobId)
    requires OnlyJob(s, s', j)
    ensures JobsEvolve(cfg, s, s')
  {
  }

  lemma JobStepMovesOne(cfg: Config, s: State, step: Step)
    requires (step.Read? || step.Write? || step.Finish?) && step.j in s.jobs
    ensures OnlyJob(s, Apply(cfg, s, step), step.j)
  {
    var s' := Apply(cfg, s, step);
    assert s'.jobs == s.jobs[step.j := s'.jobs[step.j]];
  }

  lemma StepEvolves(cfg: Config, s: State, step: Step)
    ensures JobsEvolve(cfg, s, Apply(cfg, s, step))
  {
    if (step.Read? || step.Write? || step.Finish?) && step.j in s.jobs {
      JobStepMovesOne(cfg, s, step);
      OneJobEvolves(cfg, s, Apply(cfg, s, step), step.j);
    }
  }

  lemma EvolveKeepsTokens(cfg: Config, s: State, s': State)
    requires TokensDistinct(s) && ClockSane(s) && JobsEvolve(cfg, s, s')
    ensures TokensDistinct(s') && ClockSane(s')
  {
    forall j | j in s'.jobs
      ensures s'.jobs[j].now <= s'.clock && s'.jobs[j].now <= s'.jobs[j].expires
      ensures s'.jobs[j].Granted() ==> s'.jobs[j].start <= s'.clock
    {
      if j in s.jobs {
        assert SameJob(s.jobs[j], s'.jobs[j]);
      }
    }
    forall i, j | i in s'.jobs && j in s'.jobs && i != j
      ensures s'.jobs[i].token != s'.jobs[j].token
    {
      assert i in s.jobs ==> SameJob(s.jobs[i], s'.jobs[i]);
      assert j in s.jobs ==> SameJob(s.jobs[j], s'.jobs[j]);
    }
  }

  /** No lease changes hands: rows keep token and expiry, jobs keep their grants. */
  predicate OwnersUnchanged(s: State, s': State) {
    && s'.rows.Keys == s.rows.Keys
    && (forall c <- s.rows :: s'.rows[c].token == s.rows[c].token && s'.rows[c].expiresAt == s.rows[c].expiresAt)
    && (forall k <- s.jobs :: k in s'.jobs && SameJob(s.jobs[k], s'.jobs[k]))
    && (forall k <- s'.jobs :: s'.jobs[k].Granted() || s'.jobs[k].phase.ToRefresh? ==> s'.jobs[k].c in s'.rows)
  }

  lemma UnchangedKeepsOwners(s: State, s': State)
    requires RowsOwned(s) && OwnersUnchanged(s, s')
    ensures RowsOwned(s')
  {
    forall c | c in s'.rows
      ensures exists j :: Owns(s', c, j)
    {
      var j :| Owns(s, c, j);
      OwnerKept(s, s', c, j);
    }
  }

  /** Job j's token and expiry have just been written to its conversation's row. */
  predicate RowWritten(s: State, s': State, j: JobId) {
    && j in s.jobs && !s.jobs[j].Granted()
    && s'.jobs == s.jobs[j := s.jobs[j].(phase := Running, start := s.clock)]
    && var c := s.jobs[j].c;
       c in s'.rows && s'.rows == s.rows[c := s'.rows[c]] && s'.rows[c].token == s.jobs[j].token
         && s'.rows[c].expiresAt == s.jobs[j].expires
  }

  lemma WriteKeepsOwners(s: State, s': State, j: JobId)
    requires RowsOwned(s) && RowWritten(s, s', j)
    ensures RowsOwned(s')
  {
    forall c | c in s'.rows
      ensures exists k :: Owns(s', c, k)
    {
      if c == s.jobs[j].c {
        assert Owns(s', c, j);
      } else {
        var k :| Owns(s, c, k);
        OwnerKept(s, s', c, k);
      }
    }
  }

  predicate Grants(s: State, step: Step) {
    && step.Write? && step.j in s.jobs
    && var job := s.jobs[step.j];
       job.phase.ToRefresh? || (job.phase.ToUpsert? && CanUpsert(s.rows, job.c, job.now))
  }

  lemma GrantWritesRow(cfg: Config, s: State, step: Step)
    requires RowsOwned(s) && Grants(s, step)
    ensures RowWritten(s, Apply(cfg, s, step), step.j)
  {
    var s' := Apply(cfg, s, step);
    var c := s.jobs[step.j].c;
    assert s'.rows == s.rows[c := s'.rows[c]];
  }

  /** One job moves on without a grant, and the rows are as they were or one is released. */
  predicate JobMoved(s: State, s': State, j: JobId) {
    && j in s.jobs && j in s'.jobs && s'.jobs == s.jobs[j := s'.jobs[j]]
    && SameJob(s.jobs[j], s'.jobs[j])
    && (s'.jobs[j].Granted() || s'.jobs[j].phase.ToRefresh? ==> s'.jobs[j].c in s.rows)
    && (s'.rows == s.rows || s'.rows == Release(s.rows, s.jobs[j].c, s.jobs[j].token, s.clock))
  }

  lemma MoveKeepsOwners(s: State, s': State, j: JobId)
    requires RowsOwned(s) && JobMoved(s, s', j)
    ensures OwnersUnchanged(s, s')
  {
  }

  lemma ReadMoves(cfg: Config, s: State, j: JobId)
    requires RowsOwned(s) && At(s, j, Begun)
    ensures JobMoved(s, Apply(cfg, s, Read(j)), j)
  {
  }

  lemma RefusedMoves(cfg: Config, s: State, j: JobId)
    requires RowsOwned(s) && At(s, j, ToUpsert) && !Grants(s, Write(j))
    ensures JobMoved(s, Apply(cfg, s, Write(j)), j)
  {
  }

  lemma FinishMoves(cfg: Config, s: State, j: JobId)
    requires RowsOwned(s) && At(s, j, Running)
    ensures JobMoved(s, Apply(cfg, s, Finish(j)), j)
  {
  }

  lemma OtherStepKeepsRows(cfg: Config, s: State, step: Step)
    requires RowsOwned(s) && !Grants(s, step)
    ensures OwnersUnchanged(s, Apply(cfg, s, step))
  {
    match step
    case Tick(d) =>
    case Begin(j, c, w, token) =>
    case Read(j) =>
      if At(s, j, Begun) {
        ReadMoves(cfg, s, j);
        MoveKeepsOwners(s, Apply(cfg, s, step), j);
      }
    case Write(j) =>
      if At(s, j, ToUpsert) {
        RefusedMoves(cfg, s, j);
        MoveKeepsOwners(s, Apply(cfg, s, step), j);
      }
    case Finish(j) =>
      if At(s, j, Running) {
        FinishMoves(cfg, s, j);
        MoveKeepsOwners(s, Apply(cfg, s, step), j);
      }
  }

  lemma StepKeepsOwners(cfg: Config, s: State, step: Step)
    requires Inv(cfg, s)
    ensures RowsOwned(Apply(cfg, s, step))
  {
    if Grants(s, step) {
      GrantWritesRow(cfg, s, step);
      WriteKeepsOwners(s, Apply(cfg, s, step), step.j);
    } else {
      OtherStepKeepsRows(cfg, s, step);
      UnchangedKeepsOwners(s, Apply(cfg, s, step));
    }
  }

  lemma StepKeepsInv(cfg: Config, s: State, step: Step)
    requires Inv(cfg, s)
    ensures Inv(cfg, Apply(cfg, s, step))
  {
    StepKeepsOwners(cfg, s, step);
    StepEvolves(cfg, s, step);
    EvolveKeepsTokens(cfg, s, Apply(cfg, s, step));
  }

  lemma {:induction false} ExecKeepsInv(cfg: Config, clock: int, steps: seq<Step>)
    ensures Inv(cfg, Exec(cfg, Init(clock), steps))
  {
    if steps != [] {
      ExecKeepsInv(cfg, clock, steps[..|steps| - 1]);
      StepKeepsInv(cfg, Exec(cfg, Init(clock), steps[..|steps| - 1]), steps[|steps| - 1]);
    }
  }

  /** A granted token that does not validate is dead: no step revives it. */
  predicate Dead(s: State, c: Conversation, j: JobId) {
    j in s.jobs && s.jobs[j].Granted() && !Valid(s, c, s.jobs[j].token)
  }

  lemma DeadStaysDead(cfg: Config, s: State, step: Step, c: Conversation, j: JobId)
    requires Inv(cfg, s) && Dead(s, c, j)
    ensures Dead(Apply(cfg, s, step), c, j)
    ensures Apply(cfg, s, step).jobs[j].token == s.jobs[j].token
  {
  }

  lemma {:induction false} ExecAppend(cfg: Config, s: State, a: seq<Step>, b: seq<Step>)
    ensures Exec(cfg, s, a + b) == Exec(cfg, Exec(cfg, s, a), b)
  {
    if b == [] {
      assert a + b == a;
    } else {
      assert (a + b)[..|a + b| - 1] == a + b[..|b| - 1];
      ExecAppend(cfg, s, a, b[..|b| - 1]);
    }
  }

  /** Fencing, with any worker ids and the refresh branch live: once a granted token has
    * been superseded, has expired or was released, it never validates again. */
  lemma {:induction false} FencedForever(cfg: Config, clock: int, before: seq<Step>, after: seq<Step>, c: Conversation,
                                         j: JobId)
    requires Dead(Exec(cfg, Init(clock), before), c, j)
    ensures Dead(Exec(cfg, Init(clock), before + after), c, j)
    ensures Exec(cfg, Init(clock), before + after).jobs[j].token == Exec(cfg, Init(clock), before).jobs[j].token
  {
    if after == [] {
      assert before + after == before;
    } else {
      var shorter := before + after[..|after| - 1];
      assert (before + after)[..|before + after| - 1] == shorter;
      FencedForever(cfg, clock, before, after[..|after| - 1], c, j);
      ExecKeepsInv(cfg, clock, shorter);
      DeadStaysDead(cfg, Exec(cfg, Init(clock), shorter), after[|after| - 1], c, j);
    }
  }

  /** At most one token validates per conversation, and it belongs to a granted job for
    * that very conversation which has not been released. */
  lemma AtMostOneValid(cfg: Config, clock: int, steps: seq<Step>, c: Conversation, t: Token, u: Token)
    ensures var s := Exec(cfg, Init(clock), steps);
            Valid(s, c, t) ==>
              && (Valid(s, c, u) <==> u == t)
              && exists j ::
                   j in s.jobs && s.jobs[j].Granted() && s.jobs[j].token == t && s.jobs[j].c == c
                   && s.clock < s.jobs[j].expires
  {
    var s := Exec(cfg, Init(clock), steps);
    ExecKeepsInv(cfg, clock, steps);
    if Valid(s, c, t) {
      var j :| Owns(s, c, j);
      assert s.jobs[j].token == t;
    }
  }

  /** Only three things end a live token: its expiry, its own release, or a refresh write.
    * A new worker's upsert never does, however stale its clock reading. */
  lemma LiveTokenEndsOnlyBy(cfg: Config, s: State, step: Step, c: Conversation, token: Token)
    requires Inv(cfg, s) && Valid(s, c, token)
    ensures !Valid(Apply(cfg, s, step), c, token) <==>
            || (step.Tick? && s.rows[c].expiresAt <= s.clock + step.d)
            || (step.Finish? && At(s, step.j, Running) && s.jobs[step.j].token == token)
            || (step.Write? && At(s, step.j, ToRefresh) && s.jobs[step.j].c == c)
  {
    var owner :| Owns(s, c, owner);
  }

  lemma ExecSnoc(cfg: Config, s: State, steps: seq<Step>, last: Step)
    ensures Exec(cfg, s, steps + [last]) == Apply(cfg, Exec(cfg, s, steps), last)
  {
    assert (steps + [last])[..|steps + [last]| - 1] == steps;
  }

  /** In every run, the upsert step of a job that saw no active lease takes the lease exactly
    * if there is no row or the row had expired at the job's own, possibly stale, clock
    * reading.  Then its token is the only one that can validate, and does until it expires;
    * it ends no token that was still valid.  Otherwise every token stays as valid as it was. */
  lemma UpsertSucceedsExactly(cfg: Config, clock: int, steps: seq<Step>, j: JobId)
    requires At(Exec(cfg, Init(clock), steps), j, ToUpsert)
    ensures var s, s' := Exec(cfg, Init(clock), steps), Exec(cfg, Init(clock), steps + [Write(j)]);
            var job := s.jobs[j];
            && (At(s', j, Running) <==> job.c !in s.rows || s.rows[job.c].expiresAt <= job.now)
            && (At(s', j, Running) ==> forall t :: !Valid(s, job.c, t))
            && (At(s', j, Running) ==> forall t :: Valid(s', job.c, t) <==> t == job.token && s.clock < job.expires)
            && (!At(s', j, Running) ==> At(s', j, Skipped) && s'.rows == s.rows)
            && (forall d, t :: d != job.c || !At(s', j, Running) ==> (Valid(s', d, t) <==> Valid(s, d, t)))
  {
    ExecSnoc(cfg, Init(clock), steps, Write(j));
    ExecKeepsInv(cfg, clock, steps);
    var s := Exec(cfg, Init(clock), steps);
    assert s.jobs[j].now <= s.clock;
  }

  /** In every run, a job's release ends the validity of its own token and of no other: if
    * the token is no longer current it changes nothing at all. */
  lemma ReleaseEndsOwnTokenOnly(cfg: Config, clock: int, steps: seq<Step>, j: JobId)
    requires At(Exec(cfg, Init(clock), steps), j, Running)
    ensures var s, s' := Exec(cfg, Init(clock), steps), Exec(cfg, Init(clock), steps + [Finish(j)]);
            && (forall d, t :: Valid(s', d, t) <==> Valid(s, d, t) && t != s.jobs[j].token)
            && (s.jobs[j].c !in s.rows || s.rows[s.jobs[j].c].token != s.jobs[j].token ==> s'.rows == s.rows)
  {
    ExecSnoc(cfg, Init(clock), steps, Finish(j));
    ExecKeepsInv(cfg, clock, steps);
    var s := Exec(cfg, Init(clock), steps);
    forall d | d in s.rows && s.rows[d].token == s.jobs[j].token
      ensures d == s.jobs[j].c
    {
      var owner :| Owns(s, d, owner);
      assert owner == j;
    }
  }

  // --------------------------------------- what a worker that uses its id twice can do

  function EvictionStart(ttl: nat, c: Conversation): State {
    State(0, map[c := LeaseRow(0, 1, 0, ttl, None)], map[0 := Job(c, 1, 0, 0, ttl, Running, 0, 0)])
  }

  function EvictionMiddle(ttl: nat, c: Conversation): State {
    State(ttl, EvictionStart(ttl, c).rows, EvictionStart(ttl, c).jobs[1 := Job(c, 1, 1, 0, ttl, ToRefresh, 0, 0)])
  }

  function EvictionLate(ttl: nat, c: Conversation): State {
    State(ttl, map[c := LeaseRow(2, 2, ttl, ttl + ttl, None)],
          EvictionMiddle(ttl, c).jobs[2 := Job(c, 2, 2, ttl, ttl + ttl, Running, ttl, 0)])
  }

  lemma EvictionFirstLease(ttl: nat, c: Conversation)
    ensures Exec(Config(ttl, false), Init(0), [Begin(0, c, 1, 0), Read(0), Write(0)]) == EvictionStart(ttl, c)
  {
    ExecThree(Config(ttl, false), Init(0), Begin(0, c, 1, 0), Read(0), Write(0));
  }

  lemma EvictionStaleRead(ttl: nat, c: Conversation)
    requires ttl > 0
    ensures Exec(Config(ttl, false), EvictionStart(ttl, c), [Begin(1, c, 1, 1), Read(1), Tick(ttl)])
            == EvictionMiddle(ttl, c)
  {
    var cfg, s := Config(ttl, false), EvictionStart(ttl, c);
    ExecThree(cfg, s, Begin(1, c, 1, 1), Read(1), Tick(ttl));
    var begun := s.(jobs := s.jobs[1 := Job(c, 1, 1, 0, ttl, Begun, 0, 0)]);
    assert Apply(cfg, s, Begin(1, c, 1, 1)) == begun;
    assert Apply(cfg, begun, Read(1)) == s.(jobs := s.jobs[1 := Job(c, 1, 1, 0, ttl, ToRefresh, 0, 0)]);
  }

  lemma ReadThenUpsert(cfg: Config, s: State, c: Conversation, expires: int)
    requires 2 in s.jobs && s.jobs[2] == Job(c, 2, 2, s.clock, expires, Begun, 0, 0) && c in s.rows
             && s.rows[c].expiresAt <= s.clock
    ensures Apply(cfg, Apply(cfg, s, Read(2)), Write(2))
         == State(s.clock, s.rows[c := LeaseRow(2, 2, s.clock, expires, None)],
                  s.jobs[2 := Job(c, 2, 2, s.clock, expires, Running, s.clock, 0)])
  {
    var read := s.(jobs := s.jobs[2 := Job(c, 2, 2, s.clock, expires, ToUpsert, 0, 0)]);
    assert Apply(cfg, s, Read(2)) == read;
    var granted := Job(c, 2, 2, s.clock, expires, Running, s.clock, 0);
    assert read.jobs[2 := granted] == s.jobs[2 := granted];
  }

  lemma BeginSecond(ttl: nat, c: Conversation) returns (begun: State)
    ensures begun == Apply(Config(ttl, false), EvictionMiddle(ttl, c), Begin(2, c, 2, 2))
    ensures begun.clock == ttl && begun.rows == EvictionMiddle(ttl, c).rows
    ensures begun.jobs == EvictionMiddle(ttl, c).jobs[2 := Job(c, 2, 2, ttl, ttl + ttl, Begun, 0, 0)]
  {
    begun := Apply(Config(ttl, false), EvictionMiddle(ttl, c), Begin(2, c, 2, 2));
  }

  lemma EvictionOvertaken(ttl: nat, c: Conversation)
    ensures Exec(Config(ttl, false), EvictionMiddle(ttl, c), [Begin(2, c, 2, 2), Read(2), Write(2)])
            == EvictionLate(ttl, c)
  {
    var cfg, s := Config(ttl, false), EvictionMiddle(ttl, c);
    ExecThree(cfg, s, Begin(2, c, 2, 2), Read(2), Write(2));
    var begun := BeginSecond(ttl, c);
    ReadThenUpsert(cfg, begun, c, ttl + ttl);
    var late := EvictionLate(ttl, c);
    assert begun.rows[c := late.rows[c]] == late.rows;
    assert begun.jobs[2 := late.jobs[2]] == late.jobs;
  }

  function Eviction(ttl: nat, c: Conversation): seq<Step> {
    [Begin(0, c, 1, 0), Read(0), Write(0)] + [Begin(1, c, 1, 1), Read(1), Tick(ttl)]
    + [Begin(2, c, 2, 2), Read(2), Write(2)]
  }

  lemma EvictionRun(ttl: nat, c: Conversation)
    requires ttl > 0
    ensures Exec(Config(ttl, false), Init(0), Eviction(ttl, c)) == EvictionLate(ttl, c)
  {
    var cfg := Config(ttl, false);
    var first := [Begin(0, c, 1, 0), Read(0), Write(0)];
    var second := [Begin(1, c, 1, 1), Read(1), Tick(ttl)];
    EvictionFirstLease(ttl, c);
    EvictionStaleRead(ttl, c);
    EvictionOvertaken(ttl, c);
    ExecAppend(cfg, Init(0), first, second);
    ExecAppend(cfg, Init(0), first + second, [Begin(2, c, 2, 2), Read(2), Write(2)]);
  }

  /** With a fixed worker id and any lease duration, a job that read its own lease just
    * before it expired overwrites the next worker's lease: token 2, granted at ttl until
    * twice that, is invalid at ttl. */
  lemma StaleRefreshEvicts(ttl: nat, c: Conversation)
    requires ttl > 0
    ensures var cfg := Config(ttl, false);
            var s := Exec(cfg, Init(0), Eviction(ttl, c));
            var s' := Exec(cfg, Init(0), Eviction(ttl, c) + [Write(1)]);
            && Valid(s, c, 2) && At(s, 2, Running) && s.jobs[2].expires == ttl + ttl && s.jobs[2].c == c
            && s.jobs[2].token == 2
            && !Valid(s', c, 2) && s'.clock == ttl && 2 in s'.jobs && s'.jobs[2] == s.jobs[2]
            && (forall k <- s'.jobs :: s'.jobs[k].w == s'.jobs[2].w ==> k == 2)
  {
    EvictionRun(ttl, c);
    ExecSnoc(Config(ttl, false), Init(0), Eviction(ttl, c), Write(1));
  }

  lemma ExecThree(cfg: Config, s: State, a: Step, b: Step, d: Step)
    ensures Exec(cfg, s, [a, b, d]) == Apply(cfg, Apply(cfg, Apply(cfg, s, a), b), d)
  {
    assert [a, b, d][..2] == [a, b] && [a, b][..1] == [a] && [a][..0] == [];
    assert Exec(cfg, s, [a]) == Apply(cfg, s, a);
    assert Exec(cfg, s, [a, b]) == Apply(cfg, Exec(cfg, s, [a]), b);
  }

  /** Without interference the three steps are LeaseRepository.Acquire: they end with the
    * token in the row under the same condition, and otherwise change no row. */
  lemma UninterruptedAcquire(cfg: Config, s: State, j: JobId, c: Conversation, w: Worker, token: Token)
    requires CanBegin(cfg, s, j, w, token)
    ensures var s' := Exec(cfg, s, [Begin(j, c, w, token), Read(j), Write(j)]);
            && (At(s', j, Running) <==>
                c !in s.rows || s.rows[c].expiresAt <= s.clock || (s.rows[c].releasedAt.None? && s.rows[c].worker == w))
            && (At(s', j, Running) ==>
                c in s'.rows && s'.rows[c].token == token && s'.rows[c].worker == w
                  && s'.rows[c].expiresAt == s.clock + cfg.ttl)
            && (!At(s', j, Running) ==> s'.rows == s.rows)
  {
    ExecThree(cfg, s, Begin(j, c, w, token), Read(j), Write(j));
  }

  // ------------------------------------------------- a fresh worker id per acquire

  /** The lease windows [start, expires) of two jobs do not meet. */
  predicate WindowsApart(a: Job, b: Job)
    requires a.Granted() && b.Granted()
  {
    a.expires <= b.start || b.expires <= a.start
  }

  predicate WorkersDistinct(s: State) {
    forall i, j :: i in s.jobs && j in s.jobs && i != j ==> s.jobs[i].w != s.jobs[j].w
  }

  /** Facts that tie each row to the job that wrote it. */
  predicate RowMatchesJob(s: State, c: Conversation, j: JobId)
    requires c in s.rows && j in s.jobs
  {
    s.jobs[j].token == s.rows[c].token ==>
      && s.jobs[j].Granted() && s.jobs[j].w == s.rows[c].worker
      && (s.rows[c].releasedAt.None? <==> At(s, j, Running))
  }

  predicate NoRefresh(s: State) {
    forall j <- s.jobs :: !s.jobs[j].phase.ToRefresh?
  }

  predicate RowsMatch(s: State) {
    forall c, j :: c in s.rows && j in s.jobs ==> RowMatchesJob(s, c, j)
  }

  predicate RowExpiresLast(s: State, j: JobId)
    requires j in s.jobs
  {
    var job := s.jobs[j];
    job.Granted() && job.c in s.rows ==> job.expires <= s.rows[job.c].expiresAt
  }

  predicate Apart(s: State, i: JobId, j: JobId)
    requires i in s.jobs && j in s.jobs
  {
    i != j && s.jobs[i].Granted() && s.jobs[j].Granted() && s.jobs[i].c == s.jobs[j].c ==>
      WindowsApart(s.jobs[i], s.jobs[j])
  }

  predicate Windows(s: State) {
    && (forall j <- s.jobs :: RowExpiresLast(s, j))
    && (forall i, j :: i in s.jobs && j in s.jobs ==> Apart(s, i, j))
  }

  ghost predicate FreshInv(cfg: Config, s: State) {
    Inv(cfg, s) && WorkersDistinct(s) && NoRefresh(s) && RowsMatch(s) && Windows(s)
  }

  lemma EvolveKeepsWorkers(cfg: Config, s: State, s': State)
    requires cfg.freshWorkers && WorkersDistinct(s) && JobsEvolve(cfg, s, s')
    ensures WorkersDistinct(s')
  {
    forall i, j | i in s'.jobs && j in s'.jobs && i != j
      ensures s'.jobs[i].w != s'.jobs[j].w
    {
      assert i in s.jobs ==> SameJob(s.jobs[i], s'.jobs[i]);
      assert j in s.jobs ==> SameJob(s.jobs[j], s'.jobs[j]);
    }
  }

  lemma ReadNeverFindsItself(cfg: Config, s: State, j: JobId)
    requires FreshInv(cfg, s) && At(s, j, Begun)
    ensures !AfterRead(s.rows, s.jobs[j]).ToRefresh?
  {
    var c := s.jobs[j].c;
    if c in s.rows {
      var owner :| Owns(s, c, owner);
      assert RowMatchesJob(s, c, owner);
    }
  }

  /** The effect of a successful upsert by job j. */
  predicate Upserted(s: State, s': State, j: JobId) {
    && j in s.jobs && s.jobs[j].phase.ToUpsert? && CanUpsert(s.rows, s.jobs[j].c, s.jobs[j].now)
    && var job := s.jobs[j];
       s' == State(s.clock, s.rows[job.c := LeaseRow(job.token, job.w, job.now, job.expires, None)],
                   s.jobs[j := job.(phase := Running, start := s.clock)])
  }

  lemma UpsertKeepsWindows(cfg: Config, s: State, s': State, j: JobId)
    requires Inv(cfg, s) && Windows(s) && Upserted(s, s', j)
    ensures Windows(s')
  {
    var c := s.jobs[j].c;
    assert forall k <- s.jobs :: RowExpiresLast(s, k);
    forall k | k in s'.jobs
      ensures RowExpiresLast(s', k) && Apart(s', k, j) && Apart(s', j, k)
    {
      if k != j && s.jobs[k].Granted() && s.jobs[k].c == c {
        assert s.jobs[k].expires <= s.rows[c].expiresAt <= s.jobs[j].now <= s.clock;
      }
    }
    forall i, k | i in s'.jobs && k in s'.jobs && i != j && k != j
      ensures Apart(s', i, k)
    {
      assert Apart(s, i, k);
    }
  }

  lemma UpsertKeepsMatch(cfg: Config, s: State, s': State, j: JobId)
    requires Inv(cfg, s) && RowsMatch(s) && Upserted(s, s', j)
    ensures RowsMatch(s')
  {
    forall c, k | c in s'.rows && k in s'.jobs
      ensures RowMatchesJob(s', c, k)
    {
      if c in s.rows {
        assert RowMatchesJob(s, c, k);
      }
    }
  }

  predicate Ended(s: State, s': State, j: JobId) {
    && j in s.jobs && s.jobs[j].phase.Running?
    && s' == State(s.clock, Release(s.rows, s.jobs[j].c, s.jobs[j].token, s.clock),
                   s.jobs[j := s.jobs[j].(phase := Finished, finish := s.clock)])
  }

  lemma FinishKeepsMatch(cfg: Config, s: State, s': State, j: JobId)
    requires FreshInv(cfg, s) && Ended(s, s', j)
    ensures RowsMatch(s')
  {
    forall c, k | c in s'.rows && k in s'.jobs
      ensures RowMatchesJob(s', c, k)
    {
      assert RowMatchesJob(s, c, k) && RowMatchesJob(s, c, j);
      var owner :| Owns(s, c, owner);
    }
  }

  /** Rows as they were but for releases, grants as they were. */
  predicate GrantsUnchanged(s: State, s': State) {
    && s'.rows.Keys == s.rows.Keys
    && (forall c <- s.rows :: s'.rows[c].expiresAt == s.rows[c].expiresAt)
    && (forall k <- s'.jobs :: s'.jobs[k].Granted() ==>
        k in s.jobs && s.jobs[k].Granted() && SameJob(s.jobs[k], s'.jobs[k]))
  }

  lemma UnchangedKeepsWindows(s: State, s': State)
    requires Windows(s) && GrantsUnchanged(s, s')
    ensures Windows(s')
  {
    forall k | k in s'.jobs
      ensures RowExpiresLast(s', k)
    {
      assert s'.jobs[k].Granted() ==> RowExpiresLast(s, k);
    }
    forall i, k | i in s'.jobs && k in s'.jobs
      ensures Apart(s', i, k)
    {
      assert s'.jobs[i].Granted() && s'.jobs[k].Granted() ==> Apart(s, i, k);
    }
  }

  lemma QuietKeepsMatch(cfg: Config, s: State, s': State)
    requires Inv(cfg, s) && RowsMatch(s) && s'.rows == s.rows && JobsEvolve(cfg, s, s')
    requires forall k <- s.jobs :: k in s'.jobs && (s'.jobs[k].phase.Running? <==> s.jobs[k].phase.Running?)
    ensures RowsMatch(s')
  {
    forall c, k | c in s'.rows && k in s'.jobs
      ensures RowMatchesJob(s', c, k)
    {
      var owner :| Owns(s, c, owner);
      if k in s.jobs {
        assert RowMatchesJob(s, c, k) && SameJob(s.jobs[k], s'.jobs[k]);
      }
    }
  }

  predicate Quiet(s: State, step: Step) {
    !(step.Write? && At(s, step.j, ToUpsert) && CanUpsert(s.rows, s.jobs[step.j].c, s.jobs[step.j].now))
      && !(step.Finish? && At(s, step.j, Running))
  }

  lemma QuietStep(cfg: Config, s: State, step: Step)
    requires NoRefresh(s) && Quiet(s, step)
    ensures var s' := Apply(cfg, s, step);
            && s'.rows == s.rows && GrantsUnchanged(s, s')
            && forall k <- s.jobs :: k in s'.jobs && (s'.jobs[k].phase.Running? <==> s.jobs[k].phase.Running?)
  {
  }

  lemma StepKeepsNoRefresh(cfg: Config, s: State, step: Step)
    requires FreshInv(cfg, s)
    ensures NoRefresh(Apply(cfg, s, step))
  {
    if step.Read? && At(s, step.j, Begun) {
      ReadNeverFindsItself(cfg, s, step.j);
    }
  }

  lemma StepKeepsMatchAndWindows(cfg: Config, s: State, step: Step)
    requires FreshInv(cfg, s)
    ensures RowsMatch(Apply(cfg, s, step)) && Windows(Apply(cfg, s, step))
  {
    var s' := Apply(cfg, s, step);
    if Quiet(s, step) {
      QuietStep(cfg, s, step);
      StepEvolves(cfg, s, step);
      QuietKeepsMatch(cfg, s, s');
      UnchangedKeepsWindows(s, s');
    } else if step.Write? {
      UpsertKeepsMatch(cfg, s, s', step.j);
      UpsertKeepsWindows(cfg, s, s', step.j);
    } else {
      FinishKeepsMatch(cfg, s, s', step.j);
      UnchangedKeepsWindows(s, s');
    }
  }

  lemma StepKeepsFreshInv(cfg: Config, s: State, step: Step)
    requires cfg.freshWorkers && FreshInv(cfg, s)
    ensures FreshInv(cfg, Apply(cfg, s, step))
  {
    StepKeepsInv(cfg, s, step);
    StepEvolves(cfg, s, step);
    EvolveKeepsWorkers(cfg, s, Apply(cfg, s, step));
    StepKeepsNoRefresh(cfg, s, step);
    StepKeepsMatchAndWindows(cfg, s, step);
  }

  lemma {:induction false} ExecKeepsFreshInv(cfg: Config, clock: int, steps: seq<Step>)
    requires cfg.freshWorkers
    ensures FreshInv(cfg, Exec(cfg, Init(clock), steps))
  {
    if steps != [] {
      ExecKeepsFreshInv(cfg, clock, steps[..|steps| - 1]);
      StepKeepsFreshInv(cfg, Exec(cfg, Init(clock), steps[..|steps| - 1]), steps[|steps| - 1]);
    }
  }

  /** Exclusivity: a token validates exactly when it was granted to a job for that
    * conversation which is still running and unexpired; nobody else can cut it short. */
  lemma ValidExactly(cfg: Config, clock: int, steps: seq<Step>, c: Conversation, token: Token)
    requires cfg.freshWorkers
    ensures var s := Exec(cfg, Init(clock), steps);
            Valid(s, c, token) <==>
            exists j :: At(s, j, Running) && s.jobs[j].c == c && s.jobs[j].token == token && s.clock < s.jobs[j].expires
  {
    var s := Exec(cfg, Init(clock), steps);
    ExecKeepsFreshInv(cfg, clock, steps);
    if Valid(s, c, token) {
      var owner :| Owns(s, c, owner);
      assert RowMatchesJob(s, c, owner);
    }
    if j :| At(s, j, Running) && s.jobs[j].c == c && s.jobs[j].token == token && s.clock < s.jobs[j].expires {
      var owner :| Owns(s, c, owner);
      assert RowMatchesJob(s, c, j) && Apart(s, owner, j) && RowExpiresLast(s, j);
    }
  }

  /** In every run, a job that is running before its expiry, and whose worker has no other
    * job, holds a valid token. */
  ghost predicate Exclusive(cfg: Config) {
    forall clock, steps, j :: HoldsItsLease(Exec(cfg, Init(clock), steps), j)
  }

  predicate HoldsItsLease(s: State, j: JobId) {
    At(s, j, Running) && s.clock < s.jobs[j].expires
      && (forall k <- s.jobs :: s.jobs[k].w == s.jobs[j].w ==> k == j) ==>
      Valid(s, s.jobs[j].c, s.jobs[j].token)
  }

  /** Leases are exclusive in every run if and only if each acquire has a worker id of its
    * own, or a lease lasts no time at all. */
  lemma ExclusiveExactly(cfg: Config)
    ensures Exclusive(cfg) <==> cfg.freshWorkers || cfg.ttl == 0
  {
    if cfg.freshWorkers || cfg.ttl == 0 {
      forall clock, steps, j
        ensures HoldsItsLease(Exec(cfg, Init(clock), steps), j)
      {
        var s := Exec(cfg, Init(clock), steps);
        if cfg.ttl == 0 {
          NothingLasts(cfg, clock, steps);
        } else if At(s, j, Running) {
          ValidExactly(cfg, clock, steps, s.jobs[j].c, s.jobs[j].token);
        }
      }
    } else {
      var c := Conversation("", "");
      var steps := Eviction(cfg.ttl, c) + [Write(1)];
      StaleRefreshEvicts(cfg.ttl, c);
      assert cfg == Config(cfg.ttl, false);
      assert !HoldsItsLease(Exec(cfg, Init(0), steps), 2);
    }
  }

  predicate AllExpired(s: State) {
    forall j <- s.jobs :: s.jobs[j].expires <= s.clock
  }

  lemma {:induction false} NothingLasts(cfg: Config, clock: int, steps: seq<Step>)
    requires cfg.ttl == 0
    ensures AllExpired(Exec(cfg, Init(clock), steps))
  {
    if steps != [] {
      NothingLasts(cfg, clock, steps[..|steps| - 1]);
      NothingLastsStep(cfg, Exec(cfg, Init(clock), steps[..|steps| - 1]), steps[|steps| - 1]);
    }
  }

  lemma NothingLastsStep(cfg: Config, s: State, step: Step)
    requires cfg.ttl == 0 && AllExpired(s)
    ensures AllExpired(Apply(cfg, s, step))
  {
  }

  /** The windows of any two granted jobs of one conversation are disjoint, whatever has
    * been released; so two jobs never run on one conversation both inside their lease. */
  lemma LeaseWindowsDisjoint(cfg: Config, clock: int, steps: seq<Step>, i: JobId, j: JobId)
    requires cfg.freshWorkers && i != j
    ensures var s := Exec(cfg, Init(clock), steps);
            i in s.jobs && j in s.jobs && s.jobs[i].Granted() && s.jobs[j].Granted() && s.jobs[i].c == s.jobs[j].c ==>
              && (s.jobs[i].expires <= s.jobs[j].start || s.jobs[j].expires <= s.jobs[i].start)
              && !(At(s, i, Running) && At(s, j, Running) && s.clock < s.jobs[i].expires && s.clock < s.jobs[j].expires)
  {
    ExecKeepsFreshInv(cfg, clock, steps);
    var s := Exec(cfg, Init(clock), steps);
    assert i in s.jobs && j in s.jobs ==> Apart(s, i, j);
  }

  /** Graph runs that finish by their lease's expiry never overlap. */
  lemma TimelyRunsNeverOverlap(cfg: Config, clock: int, steps: seq<Step>, i: JobId, j: JobId)
    requires cfg.freshWorkers && i != j
    ensures var s := Exec(cfg, Init(clock), steps);
            At(s, i, Finished) && At(s, j, Finished) && s.jobs[i].c == s.jobs[j].c
            && s.jobs[i].finish <= s.jobs[i].expires && s.jobs[j].finish <= s.jobs[j].expires
            ==> s.jobs[i].finish <= s.jobs[j].start || s.jobs[j].finish <= s.jobs[i].start
  {
    LeaseWindowsDisjoint(cfg, clock, steps, i, j);
  }
}
