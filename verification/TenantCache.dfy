/** TenantResolver: a TTL cache in front of the tenant table.
  *
  * resolve() suspends while the database answers, so other resolves, table updates and
  * invalidations run in between, and the entry it stores carries the clock reading taken
  * when it began.
  */
module TenantCache {
  import opened Basics

  datatype TenantStatus = Active | Suspended | Sandbox | Offboarded

  /** The status column: absent, not the name of a status, or a status. */
  datatype StatusColumn = Absent | Unknown | Present(status: TenantStatus)

  /** A stored record; tenantId is None if missing or no uuid, account is None if missing. */
  datatype Record = Record(tenantId: Option<string>, name: string, status: StatusColumn, account: Option<string>,
                           provider: string)

  datatype Context = Context(tenantId: string, key: string, name: string, status: TenantStatus, account: string,
                             provider: string, resolvedAt: int)

  datatype Failure = EmptyKey | NotFound | MalformedRecord | Inactive

  type Table = map<string, Record>

  predicate Usable(st: TenantStatus) {
    st.Active? || st.Sandbox?
  }

  /** A record without a status counts as active. */
  function StatusOf(col: StatusColumn): Option<TenantStatus> {
    match col
    case Absent => Some(Active)
    case Unknown => None
    case Present(st) => Some(st)
  }

  /** What resolve() makes of a fetched record, or why it fails closed. */
  function Build(key: string, rec: Option<Record>, at: int): Result<Context, Failure> {
    if rec.None? then Err(NotFound)
    else if rec.value.tenantId.None? || StatusOf(rec.value.status).None? || rec.value.account.None? then
      Err(MalformedRecord)
    else if !Usable(StatusOf(rec.value.status).value) then Err(Inactive)
    else
      Ok(Context(rec.value.tenantId.value, key, rec.value.name, StatusOf(rec.value.status).value,
                 rec.value.account.value, rec.value.provider, at))
  }

  /** The record has every column resolve() needs, and a status that lets the tenant in. */
  ghost predicate Resolvable(rec: Record) {
    && rec.tenantId.Some? && rec.account.Some?
    && (rec.status.Absent? || rec.status == Present(Active) || rec.status == Present(Sandbox))
  }

  /** The context is this record's, column by column; without a status it is an active one. */
  ghost predicate IsContextOf(ctx: Context, key: string, rec: Record) {
    && Resolvable(rec) && ctx.key == key
    && rec.tenantId == Some(ctx.tenantId) && rec.account == Some(ctx.account)
    && ctx.name == rec.name && ctx.provider == rec.provider
    && (if rec.status.Absent? then ctx.status.Active? else rec.status == Present(ctx.status))
  }

  /** Which records resolve, to what, and why the others do not. */
  lemma BuildExactly(key: string, rec: Option<Record>, at: int)
    ensures var r := Build(key, rec, at);
            && (r.Ok? <==> rec.Some? && Resolvable(rec.value))
            && (r.Ok? ==> IsContextOf(r.value, key, rec.value) && r.value.resolvedAt == at)
            && (r == Err(NotFound) <==> rec.None?)
            && (r == Err(MalformedRecord) <==>
                  rec.Some? && (rec.value.tenantId.None? || rec.value.account.None? || rec.value.status.Unknown?))
  {
  }

  lemma BuildsContext(key: string, rec: Option<Record>, ctx: Context)
    ensures Build(key, rec, ctx.resolvedAt) == Ok(ctx) <==> rec.Some? && IsContextOf(ctx, key, rec.value)
  {
    BuildExactly(key, rec, ctx.resolvedAt);
  }

  function Get(t: Table, key: string): Option<Record> {
    if key in t then Some(t[key]) else None
  }

  datatype Entry = Entry(ctx: Context, cachedAt: int)

  /** The entry a lookup of key at now meets, if one is there and young enough. */
  function Served(cache: map<string, Entry>, ttl: nat, key: string, now: int): Option<Entry> {
    if key in cache && now - cache[key].cachedAt < ttl then Some(cache[key]) else None
  }

  /** The cache as an object; one resolve is a Lookup, a database read, and a Complete. */
  class TenantResolver {
    var cache: map<string, Entry>
    const ttl: nat
    const space: char -> bool

    constructor (ttl: nat, space: char -> bool)
      ensures cache == map[] && this.ttl == ttl && this.space == space
    {
      cache := map[];
      this.ttl, this.space := ttl, space;
    }

    method Lookup(key: string, now: int) returns (r: Result<Option<Context>, Failure>)
      ensures r.Err? <==>
                || Blank(space, key)
                || (key in cache && now - cache[key].cachedAt < ttl && !Usable(cache[key].ctx.status))
      ensures r.Ok? && r.value.Some? ==>
              key in cache && r.value.value == cache[key].ctx && now - cache[key].cachedAt < ttl
                && Usable(r.value.value.status)
      ensures r.Ok? && r.value.None? ==> key !in cache || now - cache[key].cachedAt >= ttl
    {
      if Blank(space, key) {
        return Err(EmptyKey);
      }
      if key in cache && now - cache[key].cachedAt < ttl {
        if !Usable(cache[key].ctx.status) {
          return Err(Inactive);
        }
        return Ok(Some(cache[key].ctx));
      }
      r := Ok(None);
    }

    /** Caches under the clock reading of Lookup, and only usable contexts. */
    method Complete(key: string, now: int, rec: Option<Record>, at: int) returns (r: Result<Context, Failure>)
      modifies this
      ensures r == Build(key, rec, at)
      ensures r.Ok? <==> rec.Some? && Resolvable(rec.value)
      ensures r.Ok? ==> IsContextOf(r.value, key, rec.value) && r.value.resolvedAt == at
      ensures r.Ok? ==> cache == old(cache)[key := Entry(r.value, now)] && Usable(r.value.status) && r.value.key == key
      ensures r.Err? ==> cache == old(cache)
    {
      BuildExactly(key, rec, at);
      r := Build(key, rec, at);
      if r.Ok? {
        cache := cache[key := Entry(r.value, now)];
      }
    }

    /** The next lookup of key misses at any time; lookups of other keys see no difference. */
    method Invalidate(key: string)
      modifies this
      ensures forall now :: Served(cache, ttl, key, now).None?
      ensures forall k, now :: k != key ==> Served(cache, ttl, k, now) == Served(old(cache), ttl, k, now)
      ensures forall k :: k in cache ==> k in old(cache) && cache[k] == old(cache)[k]
    {
      cache := cache - {key};
    }
  }

  // ---------------------------------------------------------------- interleaved resolves

  predicate Blank(space: char -> bool, key: string) {
    forall i :: 0 <= i < |key| ==> space(key[i])
  }

  datatype Config = Config(ttl: nat, space: char -> bool)

  datatype Call =
    | Fetching(key: string, began: int)
    | Fetched(key: string, began: int, rec: Option<Record>)
    | Returned(key: string, began: int, ctx: Context, hit: bool)
    | Failed(key: string, began: int, why: Failure)

  datatype State = State(clock: int, table: Table, cache: map<string, Entry>, calls: map<nat, Call>)

  datatype Step =
    | Tick(d: nat)
    | Store(key: string, rec: Record)
    | Delete(key: string)
    | Begin(j: nat, key: string)
    | Read(j: nat)
    | Finish(j: nat)
    | Invalidate(key: string)

  function BeginCall(cfg: Config, s: State, key: string): Call {
    if Blank(cfg.space, key) then Failed(key, s.clock, EmptyKey)
    else if key in s.cache && s.clock - s.cache[key].cachedAt < cfg.ttl then
      if Usable(s.cache[key].ctx.status) then Returned(key, s.clock, s.cache[key].ctx, true)
      else Failed(key, s.clock, Inactive)
    else Fetching(key, s.clock)
  }

  function FinishCall(s: State, j: nat): State
    requires j in s.calls && s.calls[j].Fetched?
  {
    var Fetched(key, began, rec) := s.calls[j];
    match Build(key, rec, s.clock)
    case Ok(ctx) => s.(cache := s.cache[key := Entry(ctx, began)],
                       calls := s.calls[j := Returned(key, began, ctx, false)])
    case Err(why) => s.(calls := s.calls[j := Failed(key, began, why)])
  }

  function Apply(cfg: Config, s: State, step: Step): State {
    match step
    case Tick(d) => s.(clock := s.clock + d)
    case Store(key, rec) => s.(table := s.table[key := rec])
    case Delete(key) => s.(table := s.table - {key})
    case Begin(j, key) => if j in s.calls then s else s.(calls := s.calls[j := BeginCall(cfg, s, key)])
    case Read(j) =>
      if j in s.calls && s.calls[j].Fetching? then
        s.(calls := s.calls[j := Fetched(s.calls[j].key, s.calls[j].began, Get(s.table, s.calls[j].key))])
      else s
    case Finish(j) => if j in s.calls && s.calls[j].Fetched? then FinishCall(s, j) else s
    case Invalidate(key) => s.(cache := s.cache - {key})
  }

  function Init(clock: int, table: Table): State {
    State(clock, table, map[], map[])
  }

  /** The state after the first k steps. */
  function At(cfg: Config, s: State, steps: seq<Step>, k: nat): State
    requires k <= |steps|
  {
    if k == 0 then s else Apply(cfg, At(cfg, s, steps, k - 1), steps[k - 1])
  }

  lemma {:induction false} ClockMonotone(cfg: Config, s: State, steps: seq<Step>, i: nat, k: nat)
    requires i <= k <= |steps|
    ensures At(cfg, s, steps, i).clock <= At(cfg, s, steps, k).clock
  {
    if i < k {
      ClockMonotone(cfg, s, steps, i, k - 1);
    }
  }

  /** At instant i the table held a record for key, and ctx is its context: what a direct
    * lookup would have built, its resolved_at stamp apart. */
  ghost predicate LookupAt(cfg: Config, s: State, steps: seq<Step>, i: nat, key: string, ctx: Context)
    requires i <= |steps|
  {
    var t := At(cfg, s, steps, i);
    key in t.table && IsContextOf(ctx, key, t.table[key])
  }

  /** Up to instant k there was one, at clock reading since or later, at which the
    * table held the record / would have given the context. */
  predicate Seen(cfg: Config, s: State, steps: seq<Step>, k: nat, since: int, key: string, rec: Option<Record>)
    requires k <= |steps|
  {
    exists i :: 0 <= i <= k && since <= At(cfg, s, steps, i).clock && Get(At(cfg, s, steps, i).table, key) == rec
  }

  ghost predicate Backed(cfg: Config, s: State, steps: seq<Step>, k: nat, since: int, key: string, ctx: Context)
    requires k <= |steps|
  {
    exists i :: 0 <= i <= k && since <= At(cfg, s, steps, i).clock && LookupAt(cfg, s, steps, i, key, ctx)
  }

  /** Everything the cache or a call knows about key was read from the table. */
  ghost predicate Known(cfg: Config, s: State, steps: seq<Step>, k: nat, key: string)
    requires k <= |steps|
  {
    var t := At(cfg, s, steps, k);
    && (key in t.cache ==>
          Usable(t.cache[key].ctx.status) && Backed(cfg, s, steps, k, t.cache[key].cachedAt, key, t.cache[key].ctx))
    && (forall j :: j in t.calls && t.calls[j].key == key && t.calls[j].Fetched? ==>
          Seen(cfg, s, steps, k, t.calls[j].began, key, t.calls[j].rec))
  }

  lemma SeenLater(cfg: Config, s: State, steps: seq<Step>, k: nat, since: int, key: string, rec: Option<Record>)
    requires k < |steps| && Seen(cfg, s, steps, k, since, key, rec)
    ensures Seen(cfg, s, steps, k + 1, since, key, rec)
  {
  }

  lemma SeenBacks(cfg: Config, s: State, steps: seq<Step>, k: nat, since: int, key: string, rec: Option<Record>,
                  ctx: Context)
    requires k <= |steps| && Seen(cfg, s, steps, k, since, key, rec) && Build(key, rec, ctx.resolvedAt) == Ok(ctx)
    ensures Backed(cfg, s, steps, k, since, key, ctx)
  {
    var i :| 0 <= i <= k && since <= At(cfg, s, steps, i).clock && Get(At(cfg, s, steps, i).table, key) == rec;
    BuildsContext(key, rec, ctx);
    assert LookupAt(cfg, s, steps, i, key, ctx);
  }

  /** Calls never claim to have begun in the future. */
  predicate BegunBefore(t: State) {
    forall j <- t.calls :: t.calls[j].began <= t.clock
  }

  lemma {:induction false} CallsBegunBefore(cfg: Config, clock: int, table: Table, steps: seq<Step>, k: nat)
    requires k <= |steps|
    ensures BegunBefore(At(cfg, Init(clock, table), steps, k))
  {
    if k > 0 {
      CallsBegunBefore(cfg, clock, table, steps, k - 1);
    }
  }

  /** A record in a call's hand was there before, or has just been read. */
  lemma FetchedBefore(cfg: Config, t: State, step: Step, j: nat)
    requires j in Apply(cfg, t, step).calls && Apply(cfg, t, step).calls[j].Fetched?
    ensures var call := Apply(cfg, t, step).calls[j];
            j in t.calls && (t.calls[j] == call
                             || (t.calls[j].began == call.began && call.rec == Get(t.table, call.key)))
  {
  }

  lemma FinishBuilds(t: State, j: nat)
    requires j in t.calls && t.calls[j].Fetched?
    ensures j in FinishCall(t, j).calls
    ensures var r := FinishCall(t, j).calls[j];
            r.Returned? ==> r.key == t.calls[j].key && r.began == t.calls[j].began && Usable(r.ctx.status)
                            && Build(r.key, t.calls[j].rec, r.ctx.resolvedAt) == Ok(r.ctx)
  {
  }

  lemma StepKeepsCallsKnown(cfg: Config, s: State, steps: seq<Step>, k: nat, key: string, j: nat)
    requires k < |steps| && Known(cfg, s, steps, k, key) && BegunBefore(At(cfg, s, steps, k))
    requires var t' := At(cfg, s, steps, k + 1);
             j in t'.calls && t'.calls[j].key == key && t'.calls[j].Fetched?
    ensures var call := At(cfg, s, steps, k + 1).calls[j];
            Seen(cfg, s, steps, k + 1, call.began, key, call.rec)
  {
    var t, t' := At(cfg, s, steps, k), At(cfg, s, steps, k + 1);
    FetchedBefore(cfg, t, steps[k], j);
    if t.calls[j] == t'.calls[j] {
      SeenLater(cfg, s, steps, k, t.calls[j].began, key, t.calls[j].rec);
    } else {
      assert Get(At(cfg, s, steps, k).table, key) == t'.calls[j].rec;
    }
  }

  lemma StepKeepsKnown(cfg: Config, s: State, steps: seq<Step>, k: nat, key: string)
    requires k < |steps| && Known(cfg, s, steps, k, key) && BegunBefore(At(cfg, s, steps, k))
    ensures Known(cfg, s, steps, k + 1, key)
  {
    var t, t' := At(cfg, s, steps, k), At(cfg, s, steps, k + 1);
    var step := steps[k];
    forall j | j in t'.calls && t'.calls[j].key == key && t'.calls[j].Fetched?
      ensures Seen(cfg, s, steps, k + 1, t'.calls[j].began, key, t'.calls[j].rec)
    {
      StepKeepsCallsKnown(cfg, s, steps, k, key, j);
    }
    if key in t'.cache {
      if step.Finish? && step.j in t.calls && t.calls[step.j].Fetched? && t.calls[step.j].key == key
         && t'.calls[step.j].Returned? {
        var call := t.calls[step.j];
        SeenBacks(cfg, s, steps, k, call.began, key, call.rec, t'.cache[key].ctx);
      } else {
        assert t'.cache[key] == t.cache[key];
      }
    }
  }

  lemma {:induction false} RunKeepsKnown(cfg: Config, clock: int, table: Table, steps: seq<Step>, k: nat, key: string)
    requires k <= |steps|
    ensures Known(cfg, Init(clock, table), steps, k, key)
  {
    if k > 0 {
      RunKeepsKnown(cfg, clock, table, steps, k - 1, key);
      CallsBegunBefore(cfg, clock, table, steps, k - 1);
      StepKeepsKnown(cfg, Init(clock, table), steps, k - 1, key);
    }
  }

  /** A resolve is served from the cache, fails or goes to the database by these rules alone. */
  lemma BeginExactly(cfg: Config, t: State, key: string)
    ensures var call := BeginCall(cfg, t, key);
            var young := key in t.cache && t.clock - t.cache[key].cachedAt < cfg.ttl;
            var usable := key in t.cache && (t.cache[key].ctx.status.Active? || t.cache[key].ctx.status.Sandbox?);
            var blank := forall i :: 0 <= i < |key| ==> cfg.space(key[i]);
            && call.key == key && call.began == t.clock
            && (call.Returned? <==> !blank && young && usable)
            && (call.Returned? ==> call.ctx == t.cache[key].ctx && call.hit)
            && (call.Fetching? <==> !blank && !young)
            && (call.Failed? <==> blank || (young && !usable))
  {
  }

  /** The table changes by its own steps only. */
  lemma TableExactly(cfg: Config, t: State, step: Step)
    ensures var t' := Apply(cfg, t, step);
            && (step.Store? ==> t'.table == t.table[step.key := step.rec])
            && (step.Delete? ==> step.key !in t'.table && forall k :: k != step.key ==>
                Get(t'.table, k) == Get(t.table, k))
            && (!step.Store? && !step.Delete? ==> t'.table == t.table)
  {
  }

  /** Some step of i..k removes or replaces the entry of key. */
  predicate Disturbed(cfg: Config, s: State, steps: seq<Step>, i: nat, k: nat, key: string)
    requires k <= |steps|
  {
    exists m :: i <= m < k
      && (steps[m] == Invalidate(key)
          || (steps[m].Finish? && steps[m].j in At(cfg, s, steps, m).calls
              && At(cfg, s, steps, m).calls[steps[m].j].key == key))
  }

  /** An entry is served unchanged until it is the TTL old, whatever happens to the table, unless
    * it is invalidated or another resolve of the key completes. */
  lemma {:induction false} ServedForTtl(cfg: Config, s: State, steps: seq<Step>, i: nat, k: nat, key: string)
    requires i <= k <= |steps| && key in At(cfg, s, steps, i).cache && !Disturbed(cfg, s, steps, i, k, key)
    ensures var e := At(cfg, s, steps, i).cache[key];
            var t := At(cfg, s, steps, k);
            && key in t.cache && t.cache[key] == e
            && (!Blank(cfg.space, key) && (e.ctx.status.Active? || e.ctx.status.Sandbox?) ==>
                  (t.clock < e.cachedAt + cfg.ttl <==> BeginCall(cfg, t, key).Returned?))
            && (BeginCall(cfg, t, key).Returned? ==> BeginCall(cfg, t, key).ctx == e.ctx)
    decreases k
  {
    if i < k {
      ServedForTtl(cfg, s, steps, i, k - 1, key);
      EntryStays(cfg, At(cfg, s, steps, k - 1), steps[k - 1], key);
    }
    BeginExactly(cfg, At(cfg, s, steps, k), key);
  }

  lemma EntryStays(cfg: Config, t: State, step: Step, key: string)
    requires key in t.cache && step != Invalidate(key)
    requires !(step.Finish? && step.j in t.calls && t.calls[step.j].key == key)
    ensures var t' := Apply(cfg, t, step);
            key in t'.cache && t'.cache[key] == t.cache[key]
  {
  }

  /** Staleness: a context served from the cache at instant k is what a direct lookup would
    * have built at some earlier instant, less than the TTL before the resolve began; and
    * only active or sandbox contexts are ever served. */
  lemma HitsAreRecent(cfg: Config, clock: int, table: Table, steps: seq<Step>, k: nat, key: string)
    requires k <= |steps|
    ensures var s := Init(clock, table);
            var t := At(cfg, s, steps, k);
            BeginCall(cfg, t, key).Returned? ==>
              && Usable(BeginCall(cfg, t, key).ctx.status)
              && exists i ::
                   0 <= i <= k && t.clock - cfg.ttl < At(cfg, s, steps, i).clock <= t.clock
                   && LookupAt(cfg, s, steps, i, key, BeginCall(cfg, t, key).ctx)
  {
    var s := Init(clock, table);
    RunKeepsKnown(cfg, clock, table, steps, k, key);
    var t := At(cfg, s, steps, k);
    if BeginCall(cfg, t, key).Returned? {
      var i :| 0 <= i <= k && t.cache[key].cachedAt <= At(cfg, s, steps, i).clock
        && LookupAt(cfg, s, steps, i, key, t.cache[key].ctx);
      ClockMonotone(cfg, s, steps, i, k);
    }
  }

  /** A freshly built context was read after its resolve began, and is usable. */
  lemma MissesAreCurrent(cfg: Config, clock: int, table: Table, steps: seq<Step>, k: nat, j: nat)
    requires k <= |steps|
    ensures var s := Init(clock, table);
            var t := At(cfg, s, steps, k);
            j in t.calls && t.calls[j].Fetched? && FinishCall(t, j).calls[j].Returned? ==>
              var r := FinishCall(t, j).calls[j];
              && Usable(r.ctx.status)
              && exists i ::
                   0 <= i <= k && r.began <= At(cfg, s, steps, i).clock <= t.clock
                   && LookupAt(cfg, s, steps, i, r.key, r.ctx)
  {
    var s := Init(clock, table);
    var t := At(cfg, s, steps, k);
    if j in t.calls && t.calls[j].Fetched? && FinishCall(t, j).calls[j].Returned? {
      FinishBuilds(t, j);
      var call, ctx := t.calls[j], FinishCall(t, j).calls[j].ctx;
      RunKeepsKnown(cfg, clock, table, steps, k, call.key);
      SeenBacks(cfg, s, steps, k, call.began, call.key, call.rec, ctx);
      var i :| 0 <= i <= k && call.began <= At(cfg, s, steps, i).clock && LookupAt(cfg, s, steps, i, call.key, ctx);
      ClockMonotone(cfg, s, steps, i, k);
    }
  }

  /** Each in-flight resolve of key that has read its record would fail, would build what a
    * lookup now builds, or is too old to be served. */
  ghost predicate Harmless(cfg: Config, t: State, key: string) {
    Blank(cfg.space, key)
    || forall j <- t.calls :: t.calls[j].key == key && t.calls[j].Fetched? ==>
         || Build(key, t.calls[j].rec, 0).Err?
         || Build(key, t.calls[j].rec, 0) == Build(key, Get(t.table, key), 0)
         || t.clock - t.calls[j].began >= cfg.ttl
  }

  ghost predicate BackedFrom(cfg: Config, s: State, steps: seq<Step>, lo: nat, k: nat, key: string, ctx: Context)
    requires k <= |steps|
  {
    exists i :: lo <= i <= k && LookupAt(cfg, s, steps, i, key, ctx)
  }

  ghost predicate BuildsAsFrom(cfg: Config, s: State, steps: seq<Step>, lo: nat, k: nat, key: string,
                               rec: Option<Record>)
    requires k <= |steps|
  {
    exists i :: lo <= i <= k && Build(key, Get(At(cfg, s, steps, i).table, key), 0) == Build(key, rec, 0)
  }

  /** What the cache holds for key, and what a resolve in flight would store, is backed from
    * instant lo on or too old to be served. */
  ghost predicate FreshOrStale(cfg: Config, s: State, steps: seq<Step>, lo: nat, k: nat, key: string)
    requires k <= |steps|
  {
    var t := At(cfg, s, steps, k);
    && (key in t.cache ==>
          t.clock - t.cache[key].cachedAt >= cfg.ttl || BackedFrom(cfg, s, steps, lo, k, key, t.cache[key].ctx))
    && (forall j <- t.calls :: t.calls[j].key == key && t.calls[j].Fetched? ==>
          || Build(key, t.calls[j].rec, 0).Err?
          || BuildsAsFrom(cfg, s, steps, lo, k, key, t.calls[j].rec)
          || t.clock - t.calls[j].began >= cfg.ttl)
  }

  lemma BuildsAsBacks(cfg: Config, s: State, steps: seq<Step>, lo: nat, k: nat, key: string, rec: Option<Record>,
                      ctx: Context)
    requires k < |steps| && BuildsAsFrom(cfg, s, steps, lo, k, key, rec) && Build(key, rec, ctx.resolvedAt) == Ok(ctx)
    ensures BackedFrom(cfg, s, steps, lo, k + 1, key, ctx)
  {
    var i :| lo <= i <= k && Build(key, Get(At(cfg, s, steps, i).table, key), 0) == Build(key, rec, 0);
    BuildsContext(key, Get(At(cfg, s, steps, i).table, key), ctx);
    assert LookupAt(cfg, s, steps, i, key, ctx);
  }

  lemma StepKeepsCallsFresh(cfg: Config, s: State, steps: seq<Step>, lo: nat, k: nat, key: string, j: nat)
    requires lo <= k < |steps| && FreshOrStale(cfg, s, steps, lo, k, key)
    requires var t' := At(cfg, s, steps, k + 1);
             j in t'.calls && t'.calls[j].key == key && t'.calls[j].Fetched?
    ensures var t' := At(cfg, s, steps, k + 1);
            || Build(key, t'.calls[j].rec, 0).Err?
            || BuildsAsFrom(cfg, s, steps, lo, k + 1, key, t'.calls[j].rec)
            || t'.clock - t'.calls[j].began >= cfg.ttl
  {
    var t, t' := At(cfg, s, steps, k), At(cfg, s, steps, k + 1);
    FetchedBefore(cfg, t, steps[k], j);
    if t.calls[j] != t'.calls[j] {
      assert t'.calls[j].rec == Get(At(cfg, s, steps, k).table, key);
    }
  }

  lemma StepKeepsFresh(cfg: Config, s: State, steps: seq<Step>, lo: nat, k: nat, key: string)
    requires lo <= k < |steps| && FreshOrStale(cfg, s, steps, lo, k, key)
    ensures FreshOrStale(cfg, s, steps, lo, k + 1, key)
  {
    var t, t' := At(cfg, s, steps, k), At(cfg, s, steps, k + 1);
    forall j | j in t'.calls && t'.calls[j].key == key && t'.calls[j].Fetched?
      ensures || Build(key, t'.calls[j].rec, 0).Err?
              || BuildsAsFrom(cfg, s, steps, lo, k + 1, key, t'.calls[j].rec)
              || t'.clock - t'.calls[j].began >= cfg.ttl
    {
      StepKeepsCallsFresh(cfg, s, steps, lo, k, key, j);
    }
    var step := steps[k];
    if key in t'.cache {
      if step.Finish? && step.j in t.calls && t.calls[step.j].Fetched? && t.calls[step.j].key == key
         && t'.calls[step.j].Returned? {
        var call := t.calls[step.j];
        if t.clock - call.began < cfg.ttl {
          BuildsAsBacks(cfg, s, steps, lo, k, key, call.rec, t'.cache[key].ctx);
        }
      } else {
        assert t'.cache[key] == t.cache[key];
      }
    }
  }

  lemma {:induction false} RunKeepsFresh(cfg: Config, s: State, steps: seq<Step>, lo: nat, k: nat, key: string)
    requires lo <= k <= |steps| && FreshOrStale(cfg, s, steps, lo, lo, key)
    ensures FreshOrStale(cfg, s, steps, lo, k, key)
  {
    if lo < k {
      RunKeepsFresh(cfg, s, steps, lo, k - 1, key);
      StepKeepsFresh(cfg, s, steps, lo, k - 1, key);
    }
  }

  lemma {:induction false} AtPrefix(cfg: Config, s: State, a: seq<Step>, b: seq<Step>, k: nat)
    requires k <= |a|
    ensures At(cfg, s, a + b, k) == At(cfg, s, a, k)
  {
    if k > 0 {
      AtPrefix(cfg, s, a, b, k - 1);
    }
  }

  /** After before and an invalidation of key, what a resolve at the end of after is served
    * from the cache was readable after the invalidation. */
  ghost predicate ServesFresh(cfg: Config, s: State, before: seq<Step>, key: string, after: seq<Step>) {
    var steps := before + [Invalidate(key)] + after;
    var call := BeginCall(cfg, At(cfg, s, steps, |steps|), key);
    call.Returned? ==> BackedFrom(cfg, s, steps, |before| + 1, |steps|, key, call.ctx)
  }

  lemma HarmlessServesFresh(cfg: Config, s: State, before: seq<Step>, key: string, after: seq<Step>)
    requires Harmless(cfg, At(cfg, s, before, |before|), key)
    ensures ServesFresh(cfg, s, before, key, after)
  {
    var steps, p := before + [Invalidate(key)] + after, |before|;
    assert steps == before + ([Invalidate(key)] + after);
    AtPrefix(cfg, s, before, [Invalidate(key)] + after, p);
    var t, t' := At(cfg, s, before, p), At(cfg, s, steps, p + 1);
    assert t' == t.(cache := t.cache - {key});
    if !Blank(cfg.space, key) {
      forall j | j in t'.calls && t'.calls[j].key == key && t'.calls[j].Fetched?
        ensures || Build(key, t'.calls[j].rec, 0).Err?
                || BuildsAsFrom(cfg, s, steps, p + 1, p + 1, key, t'.calls[j].rec)
                || t'.clock - t'.calls[j].began >= cfg.ttl
      {
        assert Build(key, Get(At(cfg, s, steps, p + 1).table, key), 0) == Build(key, Get(t.table, key), 0);
      }
      RunKeepsFresh(cfg, s, steps, p + 1, |steps|, key);
    }
  }

  lemma HarmfulServesOld(cfg: Config, s: State, before: seq<Step>, key: string, j: nat)
    requires var t := At(cfg, s, before, |before|);
             && !Blank(cfg.space, key) && j in t.calls && t.calls[j].key == key && t.calls[j].Fetched?
             && Build(key, t.calls[j].rec, 0).Ok? && Build(key, t.calls[j].rec, 0) != Build(key, Get(t.table, key), 0)
             && t.clock - t.calls[j].began < cfg.ttl
    ensures !ServesFresh(cfg, s, before, key, [Finish(j)])
  {
    var p, steps := |before|, before + [Invalidate(key)] + [Finish(j)];
    assert steps == before + ([Invalidate(key)] + [Finish(j)]);
    AtPrefix(cfg, s, before, [Invalidate(key)] + [Finish(j)], p);
    var t := At(cfg, s, before, p);
    assert At(cfg, s, steps, p + 1) == t.(cache := t.cache - {key});
    assert At(cfg, s, steps, p + 2) == FinishCall(At(cfg, s, steps, p + 1), j);
    var ctx := BeginCall(cfg, At(cfg, s, steps, p + 2), key).ctx;
    assert Build(key, t.calls[j].rec, ctx.resolvedAt) == Ok(ctx);
    forall i | p + 1 <= i <= p + 2
      ensures !LookupAt(cfg, s, steps, i, key, ctx)
    {
      assert At(cfg, s, steps, i).table == t.table;
      BuildsContext(key, Get(t.table, key), ctx);
    }
  }

  /** invalidate() forces fresh data, whatever happens next, exactly if no resolve in flight
    * has read a record that builds differently from the present one and is young enough to
    * be served once stored. */
  lemma InvalidateExactly(cfg: Config, s: State, before: seq<Step>, key: string)
    ensures (forall after :: ServesFresh(cfg, s, before, key, after)) <==>
            Harmless(cfg, At(cfg, s, before, |before|), key)
  {
    var t := At(cfg, s, before, |before|);
    if Harmless(cfg, t, key) {
      forall after
        ensures ServesFresh(cfg, s, before, key, after)
      {
        HarmlessServesFresh(cfg, s, before, key, after);
      }
    } else {
      var j :| && j in t.calls && t.calls[j].key == key && t.calls[j].Fetched? && Build(key, t.calls[j].rec, 0).Ok?
               && Build(key, t.calls[j].rec, 0) != Build(key, Get(t.table, key), 0)
               && t.clock - t.calls[j].began < cfg.ttl;
      HarmfulServesOld(cfg, s, before, key, j);
    }
  }

  /** Such a resolve exists: one that read before the update and stores after the
    * invalidation brings the old record back for a full TTL. */
  lemma InvalidateRace(cfg: Config, key: string, was: Record, now: Record)
    requires cfg.ttl > 0 && !Blank(cfg.space, key) && was.name != now.name
    requires Build(key, Some(was), 0).Ok?
    ensures var s := Init(0, map[key := was]);
            var steps := [Begin(0, key), Read(0), Store(key, now), Invalidate(key), Finish(0)];
            var t := At(cfg, s, steps, 5);
            t.table == map[key := now] && BeginCall(cfg, t, key).Returned?
              && BeginCall(cfg, t, key).ctx.name == was.name
  {
    var s := Init(0, map[key := was]);
    var steps := [Begin(0, key), Read(0), Store(key, now), Invalidate(key), Finish(0)];
    assert At(cfg, s, steps, 1) == s.(calls := map[0 := Fetching(key, 0)]);
    assert At(cfg, s, steps, 2) == s.(calls := map[0 := Fetched(key, 0, Some(was))]);
    assert At(cfg, s, steps, 3) == State(0, map[key := now], map[], map[0 := Fetched(key, 0, Some(was))]);
    assert At(cfg, s, steps, 4) == At(cfg, s, steps, 3);
    assert At(cfg, s, steps, 5) == FinishCall(At(cfg, s, steps, 4), 0);
  }
}
