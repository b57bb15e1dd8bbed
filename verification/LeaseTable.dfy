/** The conversation_run_leases table and the repository that works on it.
  *
  * One row per (tenant, conversation), enforced by uq_lease_conversation.  Each
  * function below is one SQL statement; times are integers and uuid4 tokens are
  * numbers drawn by the caller.
  */
module LeaseTable {
  import opened Basics

  type Token = nat
  type Worker = nat

  datatype Conversation = Conversation(tenant: string, id: string)

  datatype LeaseRow = LeaseRow(token: Token, worker: Worker, acquiredAt: int, expiresAt: int, releasedAt: Option<int>)

  type Table = map<Conversation, LeaseRow>

  datatype LeaseError = LeaseConflict

  predicate Active(row: LeaseRow, now: int) {
    row.expiresAt > now && row.releasedAt.None?
  }

  /** The SELECT that looks for an active lease. */
  function SelectActive(t: Table, c: Conversation, now: int): Option<LeaseRow> {
    if c in t && Active(t[c], now) then Some(t[c]) else None
  }

  /** UPDATE ... WHERE id == existing.id: sets token and expiry, and nothing else. */
  function Refresh(t: Table, c: Conversation, token: Token, expires: int): Table {
    if c in t then t[c := t[c].(token := token, expiresAt := expires)] else t
  }

  /** The guard of the upsert: a row blocks it until it has expired, released or not. */
  predicate CanUpsert(t: Table, c: Conversation, now: int) {
    c in t ==> t[c].expiresAt <= now
  }

  /** INSERT ... ON CONFLICT DO UPDATE ... WHERE expires_at <= now. */
  function Upsert(t: Table, c: Conversation, w: Worker, token: Token, now: int, expires: int): Table {
    if CanUpsert(t, c, now) then t[c := LeaseRow(token, w, now, expires, None)] else t
  }

  function Release(t: Table, c: Conversation, token: Token, now: int): Table {
    if c in t && t[c].token == token then t[c := t[c].(releasedAt := Some(now))] else t
  }

  predicate IsValid(t: Table, c: Conversation, token: Token, now: int) {
    c in t && t[c].token == token && Active(t[c], now)
  }

  /** The database, shared by all repositories. */
  class LeaseDb {
    var rows: Table

    constructor ()
      ensures rows == map[]
    {
      rows := map[];
    }
  }

  class LeaseRepository {
    const db: LeaseDb
    const ttl: int
    const workerId: Worker

    constructor (db: LeaseDb, ttl: int, workerId: Worker)
      ensures this.db == db && this.ttl == ttl && this.workerId == workerId
    {
      this.db, this.ttl, this.workerId := db, ttl, workerId;
    }

    /** acquire() with nothing interleaved between its read and its write; LeaseProtocol
      * takes the same statements apart. */
    method Acquire(c: Conversation, now: int, token: Token) returns (r: Result<Token, LeaseError>)
      modifies db
      // Success: this token is the current one, to expire at now + ttl.
      ensures r.Ok? ==> r.value == token && c in db.rows && db.rows[c].releasedAt.None?
      ensures r.Ok? ==> db.rows[c].token == token && db.rows[c].worker == workerId && db.rows[c].expiresAt == now + ttl
      ensures r.Ok? ==> (IsValid(db.rows, c, token, now) <==> ttl > 0)
      ensures forall d :: d != c ==> (d in db.rows <==> d in old(db.rows))
      ensures forall d :: d != c && d in db.rows ==> db.rows[d] == old(db.rows)[d]
      // A conflict changes nothing.
      ensures r.Err? ==> db.rows == old(db.rows)
      // Exactly when it succeeds: own live lease, no row, or an expired row.
      ensures r.Ok? <==> c !in old(db.rows) || old(db.rows)[c].expiresAt <= now
                         || (old(db.rows)[c].releasedAt.None? && old(db.rows)[c].worker == workerId)
    {
      var expires := now + ttl;
      var existing := SelectActive(db.rows, c, now);
      if existing.Some? && existing.value.worker != workerId {
        return Err(LeaseConflict);
      }
      if existing.Some? {
        db.rows := Refresh(db.rows, c, token, expires);
        return Ok(token);
      }
      var rowcount := if CanUpsert(db.rows, c, now) then 1 else 0;
      db.rows := Upsert(db.rows, c, workerId, token, now, expires);
      if rowcount == 0 {
        return Err(LeaseConflict);
      }
      r := Ok(token);
    }

    /** release(): only the current token can release, and afterwards no token validates
      * until the next acquire. */
    method ReleaseLease(c: Conversation, token: Token, now: int)
      modifies db
      ensures (c !in old(db.rows) || old(db.rows)[c].token != token) ==> db.rows == old(db.rows)
      ensures c in old(db.rows) && old(db.rows)[c].token == token
              ==> db.rows == old(db.rows)[c := old(db.rows)[c].(releasedAt := Some(now))]
      ensures forall at: int :: !IsValid(db.rows, c, token, at)
      ensures forall d, t, at: int :: d != c ==> IsValid(db.rows, d, t, at) == IsValid(old(db.rows), d, t, at)
    {
      db.rows := Release(db.rows, c, token, now);
    }

    method Validate(c: Conversation, token: Token, now: int) returns (ok: bool)
      // Yes: valid now and, as the table stands, at every earlier time; and no other token is, ever.
      ensures ok ==> forall at: int :: at <= now ==> IsValid(db.rows, c, token, at)
      ensures ok ==> forall t, at: int :: IsValid(db.rows, c, t, at) ==> t == token
      // No: not valid now nor, as the table stands, at any later time.
      ensures !ok ==> forall at: int :: now <= at ==> !IsValid(db.rows, c, token, at)
    {
      ok := c in db.rows && db.rows[c].token == token && Active(db.rows[c], now);
    }
  }
}
