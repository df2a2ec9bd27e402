/** Presence in the bounded store, read off the trace of operations alone. */
module EvictionLaws {
  import opened Wrappers
  import opened TokenStore
  import opened StoreLaws

  /** Operations after which an earlier put of `key` no longer counts. */
  predicate Touches(op: Op, key: string) {
    op.OpClear? || (op.OpPut? && op.key == key) || (op.OpRemove? && op.key == key)
  }

  /** `i` is the last put of `key`, not removed or cleared since. */
  ghost predicate LastPut(ops: seq<Op>, i: nat, key: string) {
    && i < |ops| && ops[i].OpPut? && ops[i].key == key
    && forall j :: i < j < |ops| ==> !Touches(ops[j], key)
  }

  /** The keys a stretch of operations puts and does not take away again. */
  ghost function Rivals(ops: seq<Op>): set<string> {
    if |ops| == 0 then {}
    else
      var before := Rivals(ops[..|ops| - 1]);
      match ops[|ops| - 1]
      case OpPut(k, _) => before + {k}
      case OpRemove(k) => before - {k}
      case OpClear => {}
      case OpGet(_) => before
  }

  /** Every key a stretch of operations puts. */
  ghost function PutKeys(ops: seq<Op>): set<string> {
    set i | 0 <= i < |ops| && ops[i].OpPut? :: ops[i].key
  }

  /** How many rivals position `i` has just before position `m`. */
  ghost function Crowd(ops: seq<Op>, i: nat, m: nat): nat
    requires i < m <= |ops|
  {
    |Rivals(ops[i + 1..m])|
  }

  /** At no moment since position `i` did the rivals fill the room. */
  ghost predicate NeverCrowded(ops: seq<Op>, i: nat, room: nat)
    requires i < |ops|
  {
    forall m :: i < m <= |ops| ==> Crowd(ops, i, m) < room
  }

  /** The put that still holds `key`, by recursion on the trace. */
  ghost function Holder(room: nat, ops: seq<Op>, key: string): (h: Option<nat>)
    ensures h.Some? ==> h.value < |ops|
  {
    if |ops| == 0 then None
    else
      var op, before := ops[|ops| - 1], Holder(room, ops[..|ops| - 1], key);
      if op.OpPut? && op.key == key then Some(|ops| - 1)
      else if Touches(op, key) then None
      else if op.OpPut? && before.Some? && Crowd(ops, before.value, |ops|) >= room then None
      else before
  }

  lemma {:induction false} RivalsPush(ops: seq<Op>, i: nat)
    requires i < |ops| - 1
    ensures ops[i + 1..][..|ops| - i - 2] == ops[..|ops| - 1][i + 1..]
    ensures ops[i + 1..][|ops| - i - 2] == ops[|ops| - 1]
  {
  }

  /** The state of the cache after a trace, for one key: present iff held, with the held value,
      and with exactly the rivals behind it in the order. */
  ghost predicate Explains(capacity: nat, ops: seq<Op>, key: string) {
    var c, h := Run(capacity, ops), Holder(Max(capacity, 1), ops, key);
    && (key in c.tokens <==> h.Some?)
    && (h.Some? ==>
          && ops[h.value].OpPut? && c.tokens[key] == ops[h.value].token
          && Newer(c.order, key) == Rivals(ops[h.value + 1..]))
  }

  lemma {:induction false} HolderExplains(capacity: nat, ops: seq<Op>, key: string)
    ensures Explains(capacity, ops, key)
  {
    if |ops| > 0 {
      var before, op := ops[..|ops| - 1], ops[|ops| - 1];
      HolderExplains(capacity, before, key);
      RunValid(capacity, before);
      if op.OpPut? {
        if op.key == key {
          PutSelfExplains(capacity, ops);
        } else {
          PutOtherExplains(capacity, ops, key);
        }
      } else {
        OtherExplains(capacity, ops, key);
      }
    }
  }

  lemma {:induction false} PutSelfExplains(capacity: nat, ops: seq<Op>)
    requires |ops| > 0 && ops[|ops| - 1].OpPut?
    requires Valid(Run(capacity, ops[..|ops| - 1]))
    ensures Explains(capacity, ops, ops[|ops| - 1].key)
  {
    var c, op := Run(capacity, ops[..|ops| - 1]), ops[|ops| - 1];
    PutSelf(c, op.key, op.token);
    assert ops[|ops|..] == [];
    assert Run(capacity, ops) == c.Put(op.key, op.token) by { hide Cache.Put; }
    hide Cache.Put, Valid, Run, Newer;
  }

  lemma {:induction false} PutOtherExplains(capacity: nat, ops: seq<Op>, key: string)
    requires |ops| > 0 && ops[|ops| - 1].OpPut? && ops[|ops| - 1].key != key
    requires Valid(Run(capacity, ops[..|ops| - 1])) && Explains(capacity, ops[..|ops| - 1], key)
    requires Run(capacity, ops[..|ops| - 1]).capacity == capacity
    ensures Explains(capacity, ops, key)
  {
    var before, op := ops[..|ops| - 1], ops[|ops| - 1];
    var c, h := Run(capacity, before), Holder(Max(capacity, 1), before, key);
    assert Run(capacity, ops) == c.Put(op.key, op.token) by { hide Cache.Put; }
    HolderPutOther(Max(capacity, 1), ops, key);
    hide Newer, Rivals, Crowd, Cache.Put, Valid, Apply, Run, Holder, Touches;
    if key in c.tokens {
      PutOther(c, op.key, op.token, key);
      RivalsPut(ops, h.value);
    } else {
      PutAbsent(c, op.key, op.token, key);
    }
  }

  lemma {:induction false} HolderPutOther(room: nat, ops: seq<Op>, key: string)
    requires |ops| > 0 && ops[|ops| - 1].OpPut? && ops[|ops| - 1].key != key
    ensures var before := Holder(room, ops[..|ops| - 1], key);
            Holder(room, ops, key) ==
              if before.Some? && Crowd(ops, before.value, |ops|) >= room then None else before
  {
    hide Crowd;
  }

  lemma {:induction false} RivalsPut(ops: seq<Op>, i: nat)
    requires i < |ops| - 1 && ops[|ops| - 1].OpPut?
    ensures Rivals(ops[i + 1..]) == Rivals(ops[..|ops| - 1][i + 1..]) + {ops[|ops| - 1].key}
    ensures Crowd(ops, i, |ops|) == |Rivals(ops[i + 1..])|
  {
    RivalsPush(ops, i);
    assert ops[i + 1..|ops|] == ops[i + 1..];
  }

  lemma {:induction false} OtherExplains(capacity: nat, ops: seq<Op>, key: string)
    requires |ops| > 0 && !ops[|ops| - 1].OpPut?
    requires Valid(Run(capacity, ops[..|ops| - 1])) && Explains(capacity, ops[..|ops| - 1], key)
    ensures Explains(capacity, ops, key)
  {
    var before, op := ops[..|ops| - 1], ops[|ops| - 1];
    var c, h := Run(capacity, before), Holder(Max(capacity, 1), before, key);
    HolderOther(Max(capacity, 1), ops, key);
    if h.Some? {
      RivalsOther(ops, h.value);
    }
    if op.OpRemove? && op.key != key {
      NewerWithout(c.order, op.key, key);
    }
    assert Run(capacity, ops) == Apply(c, op);
    hide Newer, Valid, Without, Crowd, Holder, Rivals, Run;
  }

  lemma {:induction false} HolderOther(room: nat, ops: seq<Op>, key: string)
    requires |ops| > 0 && !ops[|ops| - 1].OpPut?
    ensures Holder(room, ops, key) ==
              if Touches(ops[|ops| - 1], key) then None else Holder(room, ops[..|ops| - 1], key)
  {
  }

  lemma {:induction false} RivalsOther(ops: seq<Op>, i: nat)
    requires i < |ops| - 1 && !ops[|ops| - 1].OpPut?
    ensures var before := Rivals(ops[..|ops| - 1][i + 1..]);
            Rivals(ops[i + 1..]) == match ops[|ops| - 1]
              case OpRemove(k) => before - {k}
              case OpClear => {}
              case _ => before
  {
    RivalsPush(ops, i);
  }

  lemma {:induction false} PutAbsent(c: Cache, other: string, token: Token, key: string)
    requires key !in c.tokens && other != key
    ensures key !in c.Put(other, token).tokens
  {
  }

  lemma {:induction false} PutSelf(c: Cache, key: string, token: Token)
    requires Valid(c)
    ensures Newer(c.Put(key, token).order, key) == {} && c.Put(key, token).Get(key) == Some(token)
  {
    EvictValid(c, key);
    var e := c.Evict(key);
    assert key in e.order <==> key in Keys(e.order);
    WithoutKeeps(e.order, key);
    assert key !in Keys(Without(e.order, key));
    NewerOfLast(if key in e.tokens then Without(e.order, key) else e.order, key);
  }

  lemma {:induction false} HolderIsLastPut(room: nat, ops: seq<Op>, key: string, i: nat)
    requires room > 0
    ensures Holder(room, ops, key) == Some(i) <==> LastPut(ops, i, key) && NeverCrowded(ops, i, room)
  {
    if |ops| > 0 {
      var before, op := ops[..|ops| - 1], ops[|ops| - 1];
      if i < |before| {
        HolderIsLastPut(room, before, key, i);
        LastPutPush(ops, i, key);
        NeverCrowdedPush(ops, i, room);
        CrowdPush(ops, i);
      } else if i == |before| {
        assert ops[i + 1..|ops|] == [];
      }
    }
  }

  lemma {:induction false} LastPutPush(ops: seq<Op>, i: nat, key: string)
    requires i < |ops| - 1
    ensures LastPut(ops, i, key) <==> LastPut(ops[..|ops| - 1], i, key) && !Touches(ops[|ops| - 1], key)
  {
    var before := ops[..|ops| - 1];
    if LastPut(ops, i, key) {
      assert forall j :: i < j < |before| ==> before[j] == ops[j];
    }
  }

  lemma {:induction false} NeverCrowdedPush(ops: seq<Op>, i: nat, room: nat)
    requires i < |ops| - 1
    ensures NeverCrowded(ops, i, room) <==>
            NeverCrowded(ops[..|ops| - 1], i, room) && Crowd(ops, i, |ops|) < room
  {
    var before := ops[..|ops| - 1];
    forall m | i < m < |ops| ensures Crowd(ops, i, m) == Crowd(before, i, m) {
      assert ops[i + 1..m] == before[i + 1..m];
    }
  }

  /** Only a put adds rivals. */
  lemma {:induction false} CrowdPush(ops: seq<Op>, i: nat)
    requires i < |ops| - 1
    ensures !ops[|ops| - 1].OpPut? ==> Crowd(ops, i, |ops|) <= Crowd(ops[..|ops| - 1], i, |ops| - 1)
  {
    var before := ops[..|ops| - 1];
    RivalsPush(ops, i);
    assert ops[i + 1..|ops|] == ops[i + 1..] && before[i + 1..|before|] == before[i + 1..];
    if !ops[|ops| - 1].OpPut? {
      SubsetSize(Rivals(ops[i + 1..]), Rivals(before[i + 1..]));
    }
  }

  /** For every trace of puts, gets, removes and clears: a key is stored iff, since its last put,
      it was never removed or cleared and fewer than max(capacity, 1) other keys were ever
      simultaneously put and not removed; its value is then the last one put. */
  lemma {:induction false} PresenceExactly(capacity: nat, ops: seq<Op>, key: string)
    ensures key in Run(capacity, ops).tokens <==>
              exists i: nat :: LastPut(ops, i, key) && NeverCrowded(ops, i, Max(capacity, 1))
    ensures forall i: nat :: LastPut(ops, i, key) && NeverCrowded(ops, i, Max(capacity, 1)) ==>
              Run(capacity, ops).Get(key) == Some(ops[i].token)
  {
    var room := Max(capacity, 1);
    HolderExplains(capacity, ops, key);
    if Holder(room, ops, key).Some? {
      HolderIsLastPut(room, ops, key, Holder(room, ops, key).value);
    }
    forall i: nat | LastPut(ops, i, key) && NeverCrowded(ops, i, room)
      ensures Holder(room, ops, key) == Some(i)
    {
      HolderIsLastPut(room, ops, key, i);
    }
  }

  lemma {:induction false} RivalsArePut(ops: seq<Op>)
    ensures Rivals(ops) <= PutKeys(ops)
    ensures (forall j :: 0 <= j < |ops| ==> ops[j].OpPut? || ops[j].OpGet?) ==> Rivals(ops) == PutKeys(ops)
  {
    if |ops| > 0 {
      var before, op := ops[..|ops| - 1], ops[|ops| - 1];
      RivalsArePut(before);
      PutKeysPush(ops);
    }
  }

  lemma {:induction false} PutKeysPush(ops: seq<Op>)
    requires |ops| > 0
    ensures var op := ops[|ops| - 1];
            PutKeys(ops) == PutKeys(ops[..|ops| - 1]) + if op.OpPut? then {op.key} else {}
  {
    var before, op := ops[..|ops| - 1], ops[|ops| - 1];
    assert forall i :: 0 <= i < |before| ==> before[i] == ops[i];
    if op.OpPut? {
      assert ops[|ops| - 1].key in PutKeys(ops);
    }
  }

  lemma {:induction false} PutKeysGrow(ops: seq<Op>, m: nat)
    requires m <= |ops|
    ensures PutKeys(ops[..m]) <= PutKeys(ops) && |PutKeys(ops[..m])| <= |PutKeys(ops)|
  {
    forall k | k in PutKeys(ops[..m]) ensures k in PutKeys(ops) {
      var i :| 0 <= i < m && ops[..m][i].OpPut? && ops[..m][i].key == k;
      assert ops[i].OpPut? && ops[i].key == k;
    }
    SubsetSize(PutKeys(ops[..m]), PutKeys(ops));
  }

  /** With removes and clears, counting distinct keys put since still guarantees presence. */
  lemma {:induction false} FewPutsSuffice(capacity: nat, ops: seq<Op>, key: string, i: nat)
    requires LastPut(ops, i, key) && |PutKeys(ops[i + 1..])| < Max(capacity, 1)
    ensures Run(capacity, ops).Get(key) == Some(ops[i].token)
  {
    forall m | i < m <= |ops| ensures Crowd(ops, i, m) < Max(capacity, 1) {
      assert ops[i + 1..m] == ops[i + 1..][..m - i - 1];
      RivalsArePut(ops[i + 1..m]);
      SubsetSize(Rivals(ops[i + 1..m]), PutKeys(ops[i + 1..m]));
      PutKeysGrow(ops[i + 1..], m - i - 1);
    }
    PresenceExactly(capacity, ops, key);
  }

  /** In a put/get-only trace that count decides: a key is stored iff fewer than
      max(capacity, 1) distinct other keys were put after its last put. */
  lemma {:induction false} PutGetPresence(capacity: nat, ops: seq<Op>, key: string)
    requires forall j :: 0 <= j < |ops| ==> ops[j].OpPut? || ops[j].OpGet?
    ensures key in Run(capacity, ops).tokens <==>
              exists i: nat :: LastPut(ops, i, key) && |PutKeys(ops[i + 1..])| < Max(capacity, 1)
  {
    PresenceExactly(capacity, ops, key);
    if i: nat :| LastPut(ops, i, key) && |PutKeys(ops[i + 1..])| < Max(capacity, 1) {
      FewPutsSuffice(capacity, ops, key, i);
    }
    if i: nat :| LastPut(ops, i, key) && NeverCrowded(ops, i, Max(capacity, 1)) {
      assert Crowd(ops, i, |ops|) < Max(capacity, 1);
      assert ops[i + 1..|ops|] == ops[i + 1..];
      RivalsArePut(ops[i + 1..]);
    }
  }
}
