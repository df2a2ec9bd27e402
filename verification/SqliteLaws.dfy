/** Expiry and cleanup of the persistent store over whole traces. */
module SqliteLaws {
  import opened Wrappers
  import opened TokenStore
  import opened SqliteStore

  /** The operations of a store with a fixed ttl, with their clock readings. */
  datatype Op =
    | SqlPut(key: string, token: Token, now: nat, later: nat)
    | SqlGet(key: string, now: nat)
    | SqlRemove(key: string)
    | SqlClear
    | SqlCleanup(now: nat)

  function Apply(ttl: Option<nat>, t: Table, op: Op): Table {
    match op
    case SqlPut(k, token, now, later) => Upsert(t, k, token, later, Expiry(ttl, now))
    case SqlGet(_, _) => t
    case SqlRemove(k) => Delete(t, k)
    case SqlClear => map[]
    case SqlCleanup(now) => Purge(t, now)
  }

  /** The answers of the `get` calls of a run, in order. */
  function Answers(ttl: Option<nat>, t: Table, ops: seq<Op>): seq<Option<Token>>
    decreases |ops|
  {
    if |ops| == 0 then []
    else
      var rest := Answers(ttl, Apply(ttl, t, ops[0]), ops[1..]);
      if ops[0].SqlGet? then [Select(t, ops[0].key, ops[0].now)] + rest else rest
  }

  function WithoutCleanup(ops: seq<Op>): seq<Op> {
    if |ops| == 0 then []
    else (if ops[0].SqlCleanup? then [] else [ops[0]]) + WithoutCleanup(ops[1..])
  }

  /** The readings that bound expiries: those of `get` and `cleanup_expired`. */
  ghost predicate Reads(op: Op) {
    op.SqlGet? || op.SqlCleanup?
  }

  ghost predicate MonotoneFrom(start: nat, ops: seq<Op>)
    decreases |ops|
  {
    |ops| == 0
    || if Reads(ops[0]) then start <= ops[0].now && MonotoneFrom(ops[0].now, ops[1..])
       else MonotoneFrom(start, ops[1..])
  }

  /** Tables no reading from `now` on can tell apart. */
  ghost predicate SameFrom(t: Table, t': Table, now: nat) {
    forall k: string, time: nat :: time >= now ==> Select(t, k, time) == Select(t', k, time)
  }

  /** Inserting or deleting any cleanup calls in a run with monotone readings changes no answer. */
  lemma {:induction false} CleanupUnobservable(ttl: Option<nat>, ops: seq<Op>, ops': seq<Op>)
    requires MonotoneFrom(0, ops) && MonotoneFrom(0, ops')
    requires WithoutCleanup(ops) == WithoutCleanup(ops')
    ensures Answers(ttl, map[], ops) == Answers(ttl, map[], ops')
  {
    AnswersWithoutCleanup(ttl, map[], map[], 0, ops);
    AnswersWithoutCleanup(ttl, map[], map[], 0, ops');
  }

  lemma {:induction false} AnswersWithoutCleanup(ttl: Option<nat>, t: Table, t': Table, start: nat, ops: seq<Op>)
    requires SameFrom(t, t', start) && MonotoneFrom(start, ops)
    ensures Answers(ttl, t, ops) == Answers(ttl, t', WithoutCleanup(ops))
    decreases |ops|
  {
    if |ops| > 0 {
      var op, rest := ops[0], ops[1..];
      var start' := if Reads(op) then op.now else start;
      var kept := WithoutCleanup(rest);
      if op.SqlCleanup? {
        assert WithoutCleanup(ops) == kept;
        AnswersWithoutCleanup(ttl, Apply(ttl, t, op), t', start', rest);
      } else {
        assert WithoutCleanup(ops) == [op] + kept;
        assert ([op] + kept)[1..] == kept;
        ApplySame(ttl, t, t', start, op);
        AnswersWithoutCleanup(ttl, Apply(ttl, t, op), Apply(ttl, t', op), start', rest);
      }
    }
  }

  lemma {:induction false} ApplySame(ttl: Option<nat>, t: Table, t': Table, start: nat, op: Op)
    requires SameFrom(t, t', start) && !op.SqlCleanup?
    ensures SameFrom(Apply(ttl, t, op), Apply(ttl, t', op), start)
  {
    forall k: string, time: nat | time >= start
      ensures Select(Apply(ttl, t, op), k, time) == Select(Apply(ttl, t', op), k, time)
    {
      assert Select(t, k, time) == Select(t', k, time);
    }
  }

  /** The hypothesis on the clock is exactly what is needed: a cleanup at `now` is invisible to
      every `get` at `time` on every table if and only if the clock did not go back. */
  lemma {:induction false} CleanupInvisibleExactly(now: nat, time: nat)
    ensures (forall t: Table, k: string :: Select(Purge(t, now), k, time) == Select(t, k, time)) <==> now <= time
  {
    if now > time {
      var t: Table := map["" := Row(("", ""), 0, Some(now as int))];
      assert Select(Purge(t, now), "", time) != Select(t, "", time);
    }
  }

  /** A token that is put answers `get` for exactly `ttl` seconds (clamped to
      i64), provided the expiry fits in an i64; otherwise it is never visible again. */
  lemma {:induction false} TokenLifetime(seconds: nat, t: Table, k: string, token: Token, now: nat, later: nat,
      time: nat)
    requires now <= I64_MAX
    ensures var t' := Upsert(t, k, token, later, Expiry(Some(seconds), now));
            Select(t', k, time) == Some(token) <==>
              now + Min(seconds, I64_MAX) <= I64_MAX && time < now + Min(seconds, I64_MAX)
  {
  }
}
