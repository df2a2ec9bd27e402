/** The bounded store against the persistent one without a ttl. */
module StoreRefinement {
  import opened Wrappers
  import opened TokenStore
  import opened StoreLaws
  import Sqlite = SqliteStore

  /** The same operations on the table; `clock` gives the reading of each. */
  function SqlRun(clock: nat -> nat, ops: seq<Op>): Sqlite.Table {
    if |ops| == 0 then map[]
    else
      var t, now := SqlRun(clock, ops[..|ops| - 1]), clock(|ops|);
      match ops[|ops| - 1]
      case OpPut(k, token) => Sqlite.Upsert(t, k, token, now, Sqlite.Expiry(None, now))
      case OpGet(_) => t
      case OpRemove(k) => Sqlite.Delete(t, k)
      case OpClear => map[]
  }

  /** For every trace: a hit of the bounded store is the answer of the unbounded one. */
  lemma {:induction false} HitsAgree(capacity: nat, clock: nat -> nat, ops: seq<Op>, key: string, now: nat)
    ensures var t := SqlRun(clock, ops);
            && (key in t ==> t[key].expiresAt.None?)
            && (Run(capacity, ops).Get(key).Some? ==> Sqlite.Select(t, key, now) == Run(capacity, ops).Get(key))
  {
    if |ops| > 0 {
      HitsAgree(capacity, clock, ops[..|ops| - 1], key, now);
    }
  }

  ghost predicate SameAnswers(capacity: nat, clock: nat -> nat, ops: seq<Op>) {
    forall key: string, now: nat ::
      Sqlite.Select(SqlRun(clock, ops), key, now) == Run(capacity, ops).Get(key)
  }

  /** All answers agree throughout a trace exactly when the live keys never exceed the room. */
  lemma {:induction false} AnswersAgreeExactly(capacity: nat, clock: nat -> nat, ops: seq<Op>)
    ensures (forall m: nat :: m <= |ops| ==> SameAnswers(capacity, clock, ops[..m]))
       <==> (forall m: nat :: m <= |ops| ==> |SqlRun(clock, ops[..m])| <= Max(capacity, 1))
  {
    if forall m: nat :: m <= |ops| ==> |SqlRun(clock, ops[..m])| <= Max(capacity, 1) {
      forall m: nat | m <= |ops| ensures SameAnswers(capacity, clock, ops[..m]) {
        FittingAgrees(capacity, clock, ops, m);
        KeysDecide(capacity, clock, ops[..m]);
      }
    }
    if forall m: nat :: m <= |ops| ==> SameAnswers(capacity, clock, ops[..m]) {
      forall m: nat | m <= |ops| ensures |SqlRun(clock, ops[..m])| <= Max(capacity, 1) {
        KeysDecide(capacity, clock, ops[..m]);
        RunValid(capacity, ops[..m]);
        SizeOfKeys(SqlRun(clock, ops[..m]), Run(capacity, ops[..m]).tokens);
      }
    }
  }

  lemma {:induction false} SizeOfKeys(t: Sqlite.Table, tokens: map<string, Token>)
    requires t.Keys == tokens.Keys
    ensures |t| == |tokens|
  {
    assert |t.Keys| == |t| && |tokens.Keys| == |tokens|;
  }

  lemma {:induction false} KeysDecide(capacity: nat, clock: nat -> nat, ops: seq<Op>)
    ensures SameAnswers(capacity, clock, ops) <==> SqlRun(clock, ops).Keys == Run(capacity, ops).tokens.Keys
  {
    var t, c := SqlRun(clock, ops), Run(capacity, ops);
    forall key: string, now: nat
      ensures Sqlite.Select(t, key, now).Some? <==> key in t
      ensures c.Get(key).Some? ==> Sqlite.Select(t, key, now) == c.Get(key)
    {
      HitsAgree(capacity, clock, ops, key, now);
    }
    if SameAnswers(capacity, clock, ops) {
      forall key: string ensures key in t.Keys <==> key in c.tokens.Keys {
        assert Sqlite.Select(t, key, 0) == c.Get(key);
      }
    }
  }

  lemma {:induction false} FittingAgrees(capacity: nat, clock: nat -> nat, ops: seq<Op>, m: nat)
    requires m <= |ops|
    requires forall n: nat :: n <= |ops| ==> |SqlRun(clock, ops[..n])| <= Max(capacity, 1)
    ensures SqlRun(clock, ops[..m]).Keys == Run(capacity, ops[..m]).tokens.Keys
  {
    if m > 0 {
      FittingAgrees(capacity, clock, ops, m - 1);
      RunValid(capacity, ops[..m - 1]);
      assert ops[..m][..m - 1] == ops[..m - 1];
      var t, c, op := SqlRun(clock, ops[..m - 1]), Run(capacity, ops[..m - 1]), ops[m - 1];
      if op.OpPut? {
        SizeOfKeys(t, c.tokens);
        assert |SqlRun(clock, ops[..m])| <= Max(capacity, 1);
        FittingPut(c, t, op.key, op.token);
      }
    }
  }

  lemma {:induction false} FittingPut(c: Cache, t: Sqlite.Table, key: string, token: Token)
    requires Valid(c) && t.Keys == c.tokens.Keys
    requires |t.Keys + {key}| <= c.Room()
    ensures c.Put(key, token).tokens.Keys == t.Keys + {key}
  {
    SizeOfKeys(t, c.tokens);
    if key !in c.tokens {
      assert |t.Keys + {key}| == |c.tokens| + 1;
      assert c.Evict(key) == c;
    }
  }
}
