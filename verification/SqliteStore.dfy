/** The persistent token store: one row per endpoint, with an optional expiry. Each SQL statement
    is one atomic step on the table; `now` is the clock reading bound into it. */
module SqliteStore {
  import opened Wrappers
  import opened TokenStore

  datatype Row = Row(token: Token, createdAt: int, expiresAt: Option<int>)

  type Table = map<string, Row>

  /** `i64` addition of a release build on two non-negative arguments. */
  function AddI64(a: nat, b: nat): int {
    if a + b <= I64_MAX then a + b else a + b - U64
  }

  /** `expires_at`: a ttl beyond `i64` is clamped, the sum is not. */
  function Expiry(ttl: Option<nat>, now: nat): Option<int> {
    match ttl
    case None => None
    case Some(seconds) => Some(AddI64(now, Min(seconds, I64_MAX)))
  }

  predicate Expired(row: Row, now: nat) {
    row.expiresAt.Some? && row.expiresAt.value <= now
  }

  function Upsert(t: Table, key: string, token: Token, createdAt: nat, expiresAt: Option<int>): Table {
    t[key := Row(token, createdAt, expiresAt)]
  }

  function Select(t: Table, key: string, now: nat): Option<Token> {
    if key in t && !Expired(t[key], now) then Some(t[key].token) else None
  }

  function Delete(t: Table, key: string): Table {
    map k | k in t && k != key :: t[k]
  }

  function Purge(t: Table, now: nat): Table {
    map k | k in t && !Expired(t[k], now) :: t[k]
  }

  class SqliteTokenStore {
    var table: Table
    const ttl: Option<nat>

    constructor (ttl: Option<nat>)
      ensures table == map[] && this.ttl == ttl
    {
      table := map[];
      this.ttl := ttl;
    }

    /** Two clock readings: one for the expiry, one for the creation time. */
    method Put(endpoint: string, macaroon: string, preimage: string, now: nat, later: nat)
      modifies this
      ensures table == Upsert(old(table), endpoint, (macaroon, preimage), later, Expiry(ttl, now))
    {
      var expiresAt: Option<int> := None;
      if ttl.Some? {
        var seconds := if ttl.value <= I64_MAX then ttl.value else I64_MAX;
        expiresAt := Some(AddI64(now, seconds));
      }
      table := table[endpoint := Row((macaroon, preimage), later, expiresAt)];
    }

    method Get(endpoint: string, now: nat) returns (token: Option<Token>)
      ensures token == Select(table, endpoint, now)
    {
      token := None;
      if endpoint in table {
        var row := table[endpoint];
        if row.expiresAt.None? || row.expiresAt.value > now {
          token := Some(row.token);
        }
      }
    }

    method Remove(endpoint: string)
      modifies this
      ensures table == Delete(old(table), endpoint)
    {
      table := map k | k in table && k != endpoint :: table[k];
    }

    method Clear()
      modifies this
      ensures table == map[]
    {
      table := map[];
    }

    method CleanupExpired(now: nat) returns (deleted: nat)
      modifies this
      ensures table == Purge(old(table), now)
      ensures deleted == |old(table)| - |table|
    {
      ghost var before := table;
      var doomed := set k | k in table && table[k].expiresAt.Some? && table[k].expiresAt.value <= now;
      deleted := |doomed|;
      table := map k | k in table && k !in doomed :: table[k];
      assert before.Keys == table.Keys + doomed;
      assert |before.Keys| == |table.Keys| + |doomed|;
    }

    method Count() returns (count: nat)
      ensures count == |table|
    {
      count := |table|;
    }
  }
}
