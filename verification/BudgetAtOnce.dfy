/** Runs at a single clock reading that overspend limits, beside a budget without any: the 64-bit
    counters are brought back to 0 by calls that nothing stops. */
module BudgetAtOnce {
  import opened Wrappers
  import opened Budget
  import opened BudgetLaws
  import opened BudgetConfig

  // ----- all counters together -----

  /** No limit but the per-request one. */
  predicate Free(e: Budget) {
    e.hourlyMax.None? && e.dailyMax.None? && e.totalMax.None?
  }

  /** A budget that admits `amount` while all counters stand at `n`. */
  predicate Admits(e: Budget, n: nat, amount: nat) {
    && Check(e, amount)
    && (Free(e) || (n == 0 && Cut(Cut(Cut(amount, e.hourlyMax), e.dailyMax), e.totalMax) == amount))
  }

  ghost predicate AllAt(t: Tracker, time: nat, n: nat) {
    t == Tracker(n, map[time / HOUR := n], map[time / DAY := n]) || (t == FRESH && n == 0)
  }

  lemma {:induction false} AcceptedNow(b: Budget, t: Tracker, n: nat, c: Call)
    requires n < U64 && c.amount < U64 && AllAt(t, c.time, n) && Admits(Effective(b, c.domain), n, c.amount)
    ensures Judge(CODE, b, t, c).Accepted? && AllAt(Record(CODE, t, c), c.time, Add64(n, c.amount))
  {
    assert Bucket(t.hourly, c.time / HOUR) == n && Bucket(t.daily, c.time / DAY) == n;
    assert n == 0 ==> Add64(n, c.amount) == c.amount;
    hide Effective, Add64;
    var t', m := Record(CODE, t, c), Add64(n, c.amount);
    assert t'.hourly == map[c.time / HOUR := m] && t'.daily == map[c.time / DAY := m];
  }

  /** After `calls`, all counters stand at `n` at this reading. */
  ghost predicate Standing(b: Budget, calls: seq<Call>, time: nat, n: nat) {
    AllAt(Exec(CODE, b, calls).tracker, time, n)
  }

  /** All of `more` is accepted at this reading, and brings the counters to `n`. */
  ghost predicate Reaches(b: Budget, calls: seq<Call>, more: seq<Call>, time: nat, n: nat) {
    Standing(b, calls + more, time, n) && AllAccepted(b, calls, more) && forall c :: c in more ==> c.time == time
  }

  lemma {:induction false} ReachesConcat(b: Budget, calls: seq<Call>, more: seq<Call>, rest: seq<Call>, time: nat,
                                         m: nat, n: nat)
    requires Reaches(b, calls, more, time, m) && Reaches(b, calls + more, rest, time, n)
    ensures Reaches(b, calls, more + rest, time, n)
  {
    AcceptedConcat(b, calls, more, rest);
    hide Standing, AllAccepted;
  }

  lemma {:induction false} StandingAfter(b: Budget, calls: seq<Call>, more: seq<Call>, time: nat, n: nat)
    requires Reaches(b, calls, more, time, n)
    ensures Standing(b, calls + more, time, n)
  {
    hide Standing, AllAccepted;
  }

  lemma {:induction false} OneNow(b: Budget, calls: seq<Call>, n: nat, c: Call)
    requires n < U64 && c.amount < U64 && Standing(b, calls, c.time, n)
    requires Admits(Effective(b, c.domain), n, c.amount)
    ensures Reaches(b, calls, [c], c.time, Add64(n, c.amount)) && Standing(b, calls + [c], c.time, Add64(n, c.amount))
  {
    hide Exec, Effective, Add64, Judge, Record, Admits, AllAt;
    var r := Exec(CODE, b, calls);
    AcceptedNow(b, r.tracker, n, c);
    ExecPush(b, calls, c);
    assert Exec(CODE, b, calls + [c]) == Ledger(Record(CODE, r.tracker, c), r.log + [c]);
  }

  /** The counters after `m` calls of `amount`. */
  function Turned(n: nat, m: nat, amount: nat): nat {
    Wrap64(n + m * amount)
  }

  lemma {:induction false} TurnedNext(n: nat, m: nat, amount: nat)
    ensures Turned(n, m + 1, amount) == Add64(Turned(n, m, amount), amount)
    ensures Turned(n, m, amount) < U64 && Turned(n, 0, amount) == Wrap64(n)
  {
    PlusKept(CODE, n + m * amount, amount);
    assert (m + 1) * amount == m * amount + amount;
  }

  /** `m` equal calls of a free domain. */
  lemma {:induction false} ManyNow(b: Budget, calls: seq<Call>, n: nat, c: Call, m: nat) returns (more: seq<Call>)
    requires n < U64 && c.amount < U64 && Standing(b, calls, c.time, n)
    requires Free(Effective(b, c.domain)) && Check(Effective(b, c.domain), c.amount)
    ensures Reaches(b, calls, more, c.time, Turned(n, m, c.amount))
    ensures |more| == m && forall x :: x in more ==> x == c
  {
    if m == 0 {
      more := [];
      AcceptedNone(b, calls);
      hide Effective, Standing, AllAccepted;
    } else {
      assert forall k: nat :: Admits(Effective(b, c.domain), k, c.amount);
      hide Effective, Standing, AllAccepted, Reaches, Admits, Check, Free, Turned, Add64;
      var before := ManyNow(b, calls, n, c, m - 1);
      var sum := Turned(n, m - 1, c.amount);
      TurnedNext(n, m - 1, c.amount);
      StandingAfter(b, calls, before, c.time, sum);
      OneNow(b, calls + before, sum, c);
      ReachesConcat(b, calls, before, [c], c.time, sum, Turned(n, m, c.amount));
      more := before + [c];
    }
  }

  lemma {:induction false} SpendsOne(e: Budget, most: nat)
    requires Spends(e, most)
    ensures Admits(e, 0, 1) && Check(e, 1) && most > 0
  {
  }

  lemma {:induction false} OwnCall(b: Budget, c: Call)
    ensures Under(b, Governing(b, c.domain))(c)
  {
  }

  lemma {:induction false} StandingFresh(b: Budget, time: nat)
    ensures Standing(b, [], time, 0) && Reaches(b, [], [], time, 0)
  {
    AcceptedNone(b, []);
    var none: seq<Call> := [];
    assert none + none == none;
  }

  lemma {:induction false} FullTurn()
    ensures Turned(1, U64 - 1, 1) == 0 && Add64(0, 1) == 1
  {
  }

  /** With a free domain beside it, a domain can spend any amount at one reading, one by one. */
  lemma {:induction false} SpentNow(b: Budget, most: nat, domain: Option<string>, free: Option<string>, n: nat)
    returns (calls: seq<Call>)
    requires Spends(Effective(b, domain), most) && Spends(Effective(b, free), most) && Free(Effective(b, free))
    ensures Reaches(b, [], calls, 0, 0) && forall c :: c in calls ==> c.amount == 1
    ensures Sum(calls, Under(b, Governing(b, domain))) >= n
  {
    hide Effective, Standing, AllAccepted, Reaches, Admits, Check, Free, Turned, Add64, Spends, Sum, Under, Governing;
    StandingFresh(b, 0);
    calls := [];
    if n > 0 {
      var before := SpentNow(b, most, domain, free, n - 1);
      var more := OneRound(b, most, before, domain, free);
      ReachesConcat(b, [], before, more, 0, 0, 0);
      calls := before + more;
      SumConcat(before, more, Under(b, Governing(b, domain)));
    }
  }

  /** One satoshi of `domain`, and all counters back to 0. */
  lemma {:induction false} OneRound(b: Budget, most: nat, before: seq<Call>, domain: Option<string>,
                                    free: Option<string>)
    returns (more: seq<Call>)
    requires Spends(Effective(b, domain), most) && Spends(Effective(b, free), most) && Free(Effective(b, free))
    requires Reaches(b, [], before, 0, 0)
    ensures Reaches(b, [] + before, more, 0, 0) && forall c :: c in more ==> c.amount == 1
    ensures Sum(more, Under(b, Governing(b, domain))) >= 1
  {
    SpendsOne(Effective(b, domain), most);
    SpendsOne(Effective(b, free), most);
    FullTurn();
    hide Effective, Standing, AllAccepted, Reaches, Admits, Check, Free, Turned, Add64, Spends, Sum, Under, Governing;
    var c := Call(0, 1, domain);
    StandingAfter(b, [], before, 0, 0);
    OneNow(b, [] + before, 0, c);
    var wrap := ManyNow(b, [] + before + [c], 1, Call(0, 1, free), U64 - 1);
    ReachesConcat(b, [] + before, [c], wrap, 0, 1, 0);
    more := [c] + wrap;
    OwnCall(b, c);
    HeadSum(Under(b, Governing(b, domain)), c, wrap);
  }

  lemma {:induction false} HeadSum(own: Call -> bool, c: Call, rest: seq<Call>)
    requires own(c)
    ensures Sum([c] + rest, own) >= c.amount
  {
    SumConcat([c], rest, own);
    SumPush([], c, own);
    assert [] + [c] == [c];
  }

  /** An effective budget without hourly, daily and lifetime limit lets every other domain that
      spends overspend its hour and day, all at one clock reading, one satoshi at a time. */
  lemma {:induction false} WindowOverspent(b: Budget, most: nat, domain: Option<string>, free: Option<string>,
                                           unit: nat)
    returns (calls: seq<Call>)
    requires unit == HOUR || unit == DAY
    requires Spends(Effective(b, domain), most) && LimitOf(Effective(b, domain), unit).Some?
    requires Spends(Effective(b, free), most) && Free(Effective(b, free))
    ensures AtMost(calls, most) && Timely(calls) && FreshClock(CODE, b, calls)
    ensures forall c :: c in calls ==> c.amount == 1
    ensures Sum(Exec(CODE, b, calls).log, Own(b, domain, unit, 0)) > LimitOf(Effective(b, domain), unit).value
  {
    SpendsOne(Effective(b, free), most);
    calls := SpentNow(b, most, domain, free, LimitOf(Effective(b, domain), unit).value + 1);
    assert AllAccepted(b, [], calls) && forall c :: c in calls ==> c.time == 0;
    hide Reaches, Exec, Effective, Sum;
    MonotoneIsFresh(CODE, b, calls);
    FromNothing(b, calls);
    SumSame(calls, Under(b, Governing(b, domain)), Own(b, domain, unit, 0));
  }

  // ----- few calls are enough -----

  /** Beside a free budget, about 2^64 / `most` calls at one reading make a domain spend its lifetime
      limit twice: once before the others wrap every counter to 0, and once after. */
  lemma {:induction false} OverspentAtOnce(b: Budget, most: nat, domain: Option<string>, free: Option<string>,
                                           time: nat)
    returns (calls: seq<Call>)
    requires 0 < most < U64 && time < U64
    requires Free(Effective(b, free)) && Largest(Effective(b, free), most) == most
    requires var e := Effective(b, domain);
             e.totalMax.Some? && 0 < e.totalMax.value <= most && Admits(e, 0, e.totalMax.value)
    ensures |calls| <= Rounds(most) + 3 && AtMost(calls, most) && forall c :: c in calls ==> c.time == time
    ensures var r, limit := Exec(CODE, b, calls), Effective(b, domain).totalMax.value;
            && r.log == calls && r.tracker.total == limit
            && Sum(calls, Under(b, Governing(b, domain))) >= 2 * limit
  {
    var limit := Effective(b, domain).totalMax.value;
    var spend := Call(time, limit, domain);
    assert Add64(0, limit) == limit;
    hide Effective, Standing, AllAccepted, Reaches, Admits, Check, Free, Add64, Sum, Under, Governing;
    hide Rounds, Largest, Exec;
    StandingFresh(b, time);
    OneNow(b, [], 0, spend);
    var round := RoundNow(b, most, [] + [spend], limit, free, time);
    ReachesConcat(b, [], [spend], round, time, limit, 0);
    StandingAfter(b, [], [spend] + round, time, 0);
    OneNow(b, [] + ([spend] + round), 0, spend);
    ReachesConcat(b, [], [spend] + round, [spend], time, 0, limit);
    calls := [spend] + round + [spend];
    OwnCall(b, spend);
    TwiceSpent(Under(b, Governing(b, domain)), spend, round);
    ReachedAll(b, calls, time, limit);
  }

  lemma {:induction false} ReachedAll(b: Budget, calls: seq<Call>, time: nat, n: nat)
    requires Reaches(b, [], calls, time, n)
    ensures Exec(CODE, b, calls).log == calls && Exec(CODE, b, calls).tracker.total == n
    ensures forall c :: c in calls ==> c.time == time
  {
    FromNothing(b, calls);
    assert [] + calls == calls;
    hide Exec;
  }

  /** From `n` on to 0, in calls of `most` and one of what is left. */
  lemma {:induction false} RoundNow(b: Budget, most: nat, calls: seq<Call>, n: nat, free: Option<string>, time: nat)
    returns (more: seq<Call>)
    requires 0 < most < U64 && n < U64 && Standing(b, calls, time, n)
    requires Free(Effective(b, free)) && Largest(Effective(b, free), most) == most
    ensures Reaches(b, calls, more, time, 0) && |more| <= Rounds(most) + 1 && AtMost(more, most)
  {
    var m, rest := Divided(n, most);
    RoundTurn(n, m, most, rest);
    var big, last := Call(time, most, free), Call(time, rest, free);
    assert Check(Effective(b, free), most);
    assert Admits(Effective(b, free), Turned(n, m, most), rest);
    hide Effective, Standing, AllAccepted, Reaches, Admits, Check, Free, Turned, Add64, Rounds, Largest;
    var bigs := ManyNow(b, calls, n, big, m);
    TurnedNext(n, m, most);
    StandingAfter(b, calls, bigs, time, Turned(n, m, most));
    OneNow(b, calls + bigs, Turned(n, m, most), last);
    ReachesConcat(b, calls, bigs, [last], time, Turned(n, m, most), 0);
    more := bigs + [last];
  }

  /** Whole calls of `most` in 2^64. */
  function Rounds(most: nat): nat
    requires most > 0
  {
    U64 / most
  }

  lemma {:induction false} Divided(n: nat, most: nat) returns (m: nat, rest: nat)
    requires 0 < most && n < U64
    ensures n + m * most + rest == U64 && rest < most && m <= Rounds(most)
  {
    m, rest := (U64 - n) / most, (U64 - n) % most;
    QuotientLess(U64, n, most);
  }

  lemma {:induction false} RoundTurn(n: nat, m: nat, most: nat, rest: nat)
    requires n + m * most + rest == U64
    ensures Add64(Turned(n, m, most), rest) == 0
  {
    PlusKept(CODE, n + m * most, rest);
  }

  lemma {:induction false} QuotientLess(n: nat, less: nat, most: nat)
    requires 0 < most && less <= n
    ensures (n - less) / most <= n / most
  {
    var p, q := (n - less) / most, n / most;
    assert p * most <= n - less && n < (q + 1) * most;
    if p > q {
      MoreTimes(q + 1, p, most);
      assert false;
    }
  }

  lemma {:induction false} MoreTimes(a: nat, b: nat, n: nat)
    requires a <= b
    ensures a * n <= b * n
  {
  }

  lemma {:induction false} TwiceSpent(own: Call -> bool, spend: Call, middle: seq<Call>)
    requires own(spend)
    ensures Sum([spend] + middle + [spend], own) >= 2 * spend.amount
  {
    SumPush([spend] + middle, spend, own);
    SumConcat([spend], middle, own);
    SumPush([], spend, own);
    assert [] + [spend] == [spend];
  }

  /** A single call may overrun any limit when it wraps its counter: amounts must be bounded. */
  lemma {:induction false} HugeCall(limit: nat, time: nat)
    requires 0 < limit < U64
    ensures var b := Unlimited().(hourlyMax := Some(limit));
            var calls := [Call(time, 1, None), Call(time, U64 - 1, None)];
            Exec(CODE, b, calls).log == calls && Sum(calls, Own(b, None, HOUR, time / HOUR)) == U64
  {
    var b := Unlimited().(hourlyMax := Some(limit));
    var first, second := Call(time, 1, None), Call(time, U64 - 1, None);
    var t := Record(CODE, FRESH, first);
    assert Bucket(t.hourly, time / HOUR) == 1;
    TwoAccepted(CODE, b, first, second);
    TwoSum(first, second, Own(b, None, HOUR, time / HOUR));
  }
}
