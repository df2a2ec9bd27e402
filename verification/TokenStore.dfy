/** The bounded in-memory token store. An update moves its key to the back of the order, so a
    full store evicts the key put least recently (neither read recency nor first insertion). */
module TokenStore {
  import opened Wrappers

  type Token = (string, string) // macaroon, preimage

  /** `retain(|k| k != key)`. */
  function Without(order: seq<string>, key: string): seq<string> {
    if |order| == 0 then []
    else if order[0] == key then Without(order[1..], key)
    else [order[0]] + Without(order[1..], key)
  }

  function Drop(tokens: map<string, Token>, key: string): map<string, Token> {
    map k | k in tokens && k != key :: tokens[k]
  }

  datatype Cache = Cache(tokens: map<string, Token>, order: seq<string>, capacity: nat) {

    /** Most keys the store ever holds; capacity 0 behaves as 1. */
    function Room(): nat {
      Max(capacity, 1)
    }

    function Evict(key: string): Cache {
      if |tokens| >= capacity && key !in tokens && |order| > 0 then
        Cache(Drop(tokens, order[0]), order[1..], capacity)
      else this
    }

    function Put(key: string, token: Token): Cache {
      var e := Evict(key);
      Cache(e.tokens[key := token], (if key in e.tokens then Without(e.order, key) else e.order) + [key], capacity)
    }

    function Get(key: string): Option<Token> {
      if key in tokens then Some(tokens[key]) else None
    }

    function Remove(key: string): Cache {
      Cache(Drop(tokens, key), Without(order, key), capacity)
    }

    function Clear(): Cache {
      Cache(map[], [], capacity)
    }
  }

  function NewCache(capacity: nat): Cache {
    Cache(map[], [], capacity)
  }

  ghost predicate Distinct(order: seq<string>) {
    forall i, j :: 0 <= i < j < |order| ==> order[i] != order[j]
  }

  ghost function Keys(order: seq<string>): set<string> {
    set k | k in order
  }

  ghost predicate Valid(c: Cache) {
    && Distinct(c.order)
    && Keys(c.order) == c.tokens.Keys
    && |c.tokens| == |c.order| <= c.Room()
  }

  class InMemoryTokenStore {
    var tokens: map<string, Token>
    var insertionOrder: seq<string>
    const capacity: nat

    ghost function Value(): Cache
      reads this
    {
      Cache(tokens, insertionOrder, capacity)
    }

    constructor (capacity: nat)
      ensures Value() == NewCache(capacity)
    {
      tokens, insertionOrder := map[], [];
      this.capacity := capacity;
    }

    method Put(endpoint: string, macaroon: string, preimage: string)
      modifies this
      ensures Value() == old(Value()).Put(endpoint, (macaroon, preimage))
    {
      if |tokens| >= capacity && endpoint !in tokens {
        if |insertionOrder| > 0 {
          tokens := Drop(tokens, insertionOrder[0]);
          insertionOrder := insertionOrder[1..];
        }
      }
      if endpoint in tokens {
        insertionOrder := Without(insertionOrder, endpoint);
      }
      tokens := tokens[endpoint := (macaroon, preimage)];
      insertionOrder := insertionOrder + [endpoint];
    }

    method Get(endpoint: string) returns (token: Option<Token>)
      ensures token == Value().Get(endpoint)
    {
      token := if endpoint in tokens then Some(tokens[endpoint]) else None;
    }

    method Remove(endpoint: string)
      modifies this
      ensures Value() == old(Value()).Remove(endpoint)
    {
      tokens := Drop(tokens, endpoint);
      insertionOrder := Without(insertionOrder, endpoint);
    }

    method Clear()
      modifies this
      ensures Value() == old(Value()).Clear()
    {
      tokens, insertionOrder := map[], [];
    }
  }
}
