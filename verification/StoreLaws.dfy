/** Eviction over whole traces, and the bounded store against an unbounded one. */
module StoreLaws {
  import opened TokenStore

  datatype Op =
    | OpPut(key: string, token: Token)
    | OpGet(key: string)
    | OpRemove(key: string)
    | OpClear

  function Apply(c: Cache, op: Op): Cache {
    match op
    case OpPut(k, t) => c.Put(k, t)
    case OpGet(_) => c
    case OpRemove(k) => c.Remove(k)
    case OpClear => c.Clear()
  }

  function Run(capacity: nat, ops: seq<Op>): Cache {
    if |ops| == 0 then NewCache(capacity)
    else Apply(Run(capacity, ops[..|ops| - 1]), ops[|ops| - 1])
  }

  // ----- the representation invariant -----

  lemma {:induction false} WithoutKeeps(order: seq<string>, key: string)
    requires Distinct(order)
    ensures Distinct(Without(order, key))
    ensures Keys(Without(order, key)) == Keys(order) - {key}
    ensures |Without(order, key)| == |order| - if key in order then 1 else 0
  {
    if |order| > 0 {
      assert Distinct(order[1..]);
      WithoutKeeps(order[1..], key);
      assert Keys(order) == {order[0]} + Keys(order[1..]);
      assert order[0] !in order[1..];
      if order[0] == key {
      } else {
        var rest := Without(order[1..], key);
        assert Keys([order[0]] + rest) == {order[0]} + Keys(rest);
        assert order[0] !in Keys(rest);
      }
    }
  }

  lemma {:induction false} PushKeeps(order: seq<string>, key: string)
    requires Distinct(order) && key !in order
    ensures Distinct(order + [key]) && Keys(order + [key]) == Keys(order) + {key}
  {
  }

  lemma {:induction false} DropSize(tokens: map<string, Token>, key: string)
    ensures Drop(tokens, key).Keys == tokens.Keys - {key}
    ensures |Drop(tokens, key)| == |tokens| - if key in tokens then 1 else 0
  {
    assert Drop(tokens, key).Keys == tokens.Keys - {key};
    assert |Drop(tokens, key).Keys| == |Drop(tokens, key)|;
  }

  lemma {:induction false} TailKeys(order: seq<string>)
    requires Distinct(order) && |order| > 0
    ensures Distinct(order[1..]) && order[0] !in order[1..]
    ensures Keys(order[1..]) == Keys(order) - {order[0]}
  {
    assert Keys(order) == {order[0]} + Keys(order[1..]);
  }

  lemma {:induction false} EvictValid(c: Cache, key: string)
    requires Valid(c)
    ensures Valid(c.Evict(key))
    ensures if key in c.tokens then c.Evict(key) == c else |c.Evict(key).tokens| < c.Room()
  {
    if |c.tokens| >= c.capacity && key !in c.tokens && |c.order| > 0 {
      var oldest := c.order[0];
      DropSize(c.tokens, oldest);
      TailKeys(c.order);
    }
  }

  lemma {:induction false} PutValid(c: Cache, key: string, token: Token)
    requires Valid(c)
    ensures Valid(c.Put(key, token))
  {
    EvictValid(c, key);
    InsertValid(c.Evict(key), key, token);
  }

  lemma {:induction false} InsertValid(e: Cache, key: string, token: Token)
    requires Valid(e) && (key !in e.tokens ==> |e.tokens| < e.Room())
    ensures var kept := if key in e.tokens then Without(e.order, key) else e.order;
            Valid(Cache(e.tokens[key := token], kept + [key], e.capacity))
  {
    assert key in e.order <==> key in Keys(e.order);
    WithoutKeeps(e.order, key);
    var kept := if key in e.tokens then Without(e.order, key) else e.order;
    assert key !in Keys(kept);
    PushKeeps(kept, key);
    assert e.tokens[key := token].Keys == e.tokens.Keys + {key};
    assert |e.tokens[key := token].Keys| == |e.tokens[key := token]|;
  }

  lemma {:induction false} ApplyValid(c: Cache, op: Op)
    requires Valid(c)
    ensures Valid(Apply(c, op)) && Apply(c, op).capacity == c.capacity
  {
    match op
    case OpPut(k, t) => PutValid(c, k, t);
    case OpGet(_) =>
    case OpRemove(k) =>
      WithoutKeeps(c.order, k);
      DropSize(c.tokens, k);
      assert k in c.order <==> k in Keys(c.order);
    case OpClear =>
  }

  /** For every trace: the order is duplicate-free, names exactly the stored keys, and never
      exceeds max(capacity, 1). */
  lemma {:induction false} RunValid(capacity: nat, ops: seq<Op>)
    ensures Valid(Run(capacity, ops)) && Run(capacity, ops).capacity == capacity
  {
    if |ops| > 0 {
      RunValid(capacity, ops[..|ops| - 1]);
      ApplyValid(Run(capacity, ops[..|ops| - 1]), ops[|ops| - 1]);
    }
  }

  // ----- which keys are evicted -----

  /** The keys behind `key` in the order: those put after it. */
  ghost function Newer(order: seq<string>, key: string): set<string> {
    if |order| == 0 then {}
    else if order[0] == key then Keys(order[1..])
    else Newer(order[1..], key)
  }

  lemma {:induction false} NewerBound(order: seq<string>, key: string)
    requires Distinct(order) && key in order
    ensures key !in Newer(order, key) && Newer(order, key) <= Keys(order)
    ensures key != order[0] ==> order[0] !in Newer(order, key)
  {
    TailKeys(order);
    if order[0] != key {
      NewerBound(order[1..], key);
    }
  }

  lemma {:induction false} NewerWithout(order: seq<string>, other: string, key: string)
    requires Distinct(order) && other != key
    ensures Newer(Without(order, other), key) == Newer(order, key) - {other}
  {
    if |order| > 0 {
      assert Distinct(order[1..]);
      if order[0] == key {
        WithoutKeeps(order[1..], other);
        assert ([order[0]] + Without(order[1..], other))[1..] == Without(order[1..], other);
      } else {
        NewerWithout(order[1..], other, key);
        assert ([order[0]] + Without(order[1..], other))[1..] == Without(order[1..], other);
        if order[0] == other {
          NewerMembers(order[1..], key);
          assert other !in order[1..];
        }
      }
    }
  }

  lemma {:induction false} NewerMembers(order: seq<string>, key: string)
    ensures Newer(order, key) <= Keys(order)
  {
    if |order| > 0 {
      assert Keys(order[1..]) <= Keys(order);
      if order[0] != key {
        NewerMembers(order[1..], key);
      }
    }
  }

  lemma {:induction false} NewerPush(order: seq<string>, other: string, key: string)
    requires other != key
    ensures Newer(order + [other], key) == if key in order then Newer(order, key) + {other} else {}
  {
    if |order| > 0 {
      assert (order + [other])[1..] == order[1..] + [other];
      assert Keys(order[1..] + [other]) == Keys(order[1..]) + {other};
      NewerPush(order[1..], other, key);
    } else {
      assert order + [other] == [other];
    }
  }

  lemma {:induction false} NewerOfLast(order: seq<string>, key: string)
    requires key !in order
    ensures Newer(order + [key], key) == {}
  {
    if |order| > 0 {
      assert (order + [key])[1..] == order[1..] + [key];
      NewerOfLast(order[1..], key);
    } else {
      assert (order + [key])[1..] == [];
    }
  }

  lemma {:induction false} SubsetSize<T>(a: set<T>, b: set<T>)
    requires a <= b
    ensures |a| <= |b|
  {
    assert b == a + (b - a);
  }

  /** What a put of `other` does to `key`, given the newer keys before it. */
  ghost predicate PutOtherDoes(c: Cache, other: string, token: Token, key: string)
    requires key in c.tokens
  {
    var newer, c' := Newer(c.order, key) + {other}, c.Put(other, token);
    && (key in c'.tokens <==> |newer| < c.Room())
    && (key in c'.tokens ==> c'.tokens[key] == c.tokens[key] && Newer(c'.order, key) == newer)
  }

  lemma {:induction false} PutExisting(c: Cache, other: string, token: Token, key: string)
    requires Valid(c) && key in c.tokens && other in c.tokens && other != key
    ensures PutOtherDoes(c, other, token, key)
  {
    var newer, kept := Newer(c.order, key), Without(c.order, other);
    assert c.Put(other, token) == Cache(c.tokens[other := token], kept + [other], c.capacity);
    assert key in Keys(c.order) && other in Keys(c.order);
    hide Newer, Without, Cache.Put;
    NewerWithout(c.order, other, key);
    WithoutKeeps(c.order, other);
    assert key in kept by { assert key in Keys(kept); }
    NewerPush(kept, other, key);
    StoredRivals(c.order, other, key);
    hide Valid;
  }

  lemma {:induction false} StoredRivals(order: seq<string>, other: string, key: string)
    requires Distinct(order) && key in order && other in order && other != key
    ensures |Newer(order, key) + {other}| < |order|
  {
    NewerBound(order, key);
    KeysSize(order);
    SubsetSize(Newer(order, key) + {other}, Keys(order) - {key});
    hide Newer, Distinct;
  }

  lemma {:induction false} PutRoomy(c: Cache, other: string, token: Token, key: string)
    requires Valid(c) && key in c.tokens && other !in c.tokens && |c.tokens| < c.capacity
    ensures PutOtherDoes(c, other, token, key)
  {
    assert key in Keys(c.order);
    NewerBound(c.order, key);
    KeysSize(c.order);
    SubsetSize(Newer(c.order, key) + {other}, Keys(c.order) - {key} + {other});
    NewerPush(c.order, other, key);
  }

  lemma {:induction false} PutFullIs(c: Cache, other: string, token: Token)
    requires Valid(c) && |c.tokens| > 0 && other !in c.tokens && |c.tokens| >= c.capacity
    ensures c.Put(other, token)
         == Cache(Drop(c.tokens, c.order[0])[other := token], c.order[1..] + [other], c.capacity)
  {
    assert other !in Drop(c.tokens, c.order[0]);
  }

  lemma {:induction false} PutFull(c: Cache, other: string, token: Token, key: string)
    requires Valid(c) && key in c.tokens && other !in c.tokens && |c.tokens| >= c.capacity
    ensures PutOtherDoes(c, other, token, key)
  {
    var oldest, newer := c.order[0], Newer(c.order, key);
    assert key in Keys(c.order) && other !in Keys(c.order);
    PutFullIs(c, other, token);
    KeysSize(c.order);
    TailKeys(c.order);
    if oldest == key {
      assert newer == Keys(c.order[1..]);
      assert |newer + {other}| == |newer| + 1 by { KeysSize(c.order[1..]); }
      assert key !in c.Put(other, token).tokens;
    } else {
      NewerBound(c.order, key);
      RoomForNewer(c.order, other, key);
      assert key in c.order[1..];
      assert Newer(c.order[1..], key) == newer;
      NewerPush(c.order[1..], other, key);
      hide Newer;
      assert Newer(c.Put(other, token).order, key) == newer + {other};
    }
  }

  lemma {:induction false} RoomForNewer(order: seq<string>, other: string, key: string)
    requires Distinct(order) && key in order && order[0] != key
    ensures |Newer(order, key) + {other}| < |order|
  {
    NewerBound(order, key);
    KeysSize(order);
    var keys := Keys(order) - {key, order[0]};
    assert Keys(order) == keys + {key, order[0]};
    SubsetSize(Newer(order, key) + {other}, keys + {other});
  }

  /** A put of another key evicts `key` exactly when that fills the room with newer keys. */
  lemma {:induction false} PutOther(c: Cache, other: string, token: Token, key: string)
    requires Valid(c) && key in c.tokens && other != key
    ensures PutOtherDoes(c, other, token, key)
  {
    hide *;
    if other in c.tokens {
      PutExisting(c, other, token, key);
    } else if |c.tokens| < c.capacity {
      PutRoomy(c, other, token, key);
    } else {
      PutFull(c, other, token, key);
    }
  }

  lemma {:induction false} KeysSize(order: seq<string>)
    requires Distinct(order)
    ensures |Keys(order)| == |order|
  {
    if |order| > 0 {
      TailKeys(order);
      KeysSize(order[1..]);
      assert Keys(order) == Keys(order[1..]) + {order[0]};
    } else {
      assert Keys(order) == {};
    }
  }
}
