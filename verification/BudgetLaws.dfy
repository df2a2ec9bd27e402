/** What the budget tracker guarantees over whole runs, for arbitrary clock readings. */
module BudgetLaws {
  import opened Wrappers
  import opened Budget

  // ----- sums over the ghost log -----

  ghost function Sum(log: seq<Call>, p: Call -> bool): nat {
    if |log| == 0 then 0
    else Sum(log[..|log| - 1], p) + if p(log[|log| - 1]) then log[|log| - 1].amount else 0
  }

  ghost function Any(): Call -> bool {
    (c: Call) => true
  }

  /** Calls in aligned bucket `k` of `unit` seconds. */
  ghost function In(unit: nat, k: nat): Call -> bool
    requires unit > 0
  {
    (c: Call) => c.time / unit == k
  }

  ghost function Between(lo: nat, hi: nat): Call -> bool {
    (c: Call) => lo <= c.time < hi
  }

  /** Calls governed by one override, or (`None`) by the base budget. */
  ghost function Under(b: Budget, governing: Option<string>): Call -> bool {
    (c: Call) => Governing(b, c.domain) == governing
  }

  ghost function Both(p: Call -> bool, q: Call -> bool): Call -> bool {
    (c: Call) => p(c) && q(c)
  }

  lemma {:induction false} SumPush(log: seq<Call>, c: Call, p: Call -> bool)
    ensures Sum(log + [c], p) == Sum(log, p) + if p(c) then c.amount else 0
  {
    assert (log + [c])[..|log|] == log;
  }

  lemma {:induction false} SumMonotone(log: seq<Call>, p: Call -> bool, q: Call -> bool)
    requires forall c :: p(c) ==> q(c)
    ensures Sum(log, p) <= Sum(log, q)
  {
    if |log| > 0 {
      SumMonotone(log[..|log| - 1], p, q);
    }
  }

  lemma {:induction false} SumCongruent(log: seq<Call>, p: Call -> bool, q: Call -> bool)
    requires forall c :: p(c) <==> q(c)
    ensures Sum(log, p) == Sum(log, q)
  {
    SumMonotone(log, p, q);
    SumMonotone(log, q, p);
  }

  lemma {:induction false} SumDisjoint(log: seq<Call>, p: Call -> bool, q: Call -> bool, r: Call -> bool)
    requires forall c :: r(c) <==> p(c) || q(c)
    requires forall c :: !(p(c) && q(c))
    ensures Sum(log, r) == Sum(log, p) + Sum(log, q)
  {
    if |log| > 0 {
      SumDisjoint(log[..|log| - 1], p, q, r);
    }
  }

  /** Latest clock reading of an accepted call; H is this over 3600 and D over 86400. */
  ghost function Latest(log: seq<Call>): nat {
    if |log| == 0 then 0 else Max(Latest(log[..|log| - 1]), log[|log| - 1].time)
  }

  lemma {:induction false} LatestPush(log: seq<Call>, c: Call)
    ensures Latest(log + [c]) == Max(Latest(log), c.time)
  {
    assert (log + [c])[..|log|] == log;
  }

  // ----- 64-bit counters -----

  /** A sum as the counters of a mode hold it. */
  function Kept(mode: Mode, n: nat): nat {
    if mode.wraps then Wrap64(n) else n
  }

  /** The counters of a mode hold the sum itself. */
  predicate Fits(mode: Mode, n: nat) {
    mode.wraps ==> n < U64
  }

  lemma {:induction false} KeptSum(mode: Mode, m: nat, n: nat, k: nat)
    requires Kept(mode, m) == Kept(mode, n)
    ensures Kept(mode, m + Kept(mode, k)) == Kept(mode, n + k)
  {
    if mode.wraps {
      var q := k / U64;
      assert m + Wrap64(k) == m + k - U64 * q;
      assert m - n == U64 * (m / U64 - n / U64);
    }
  }

  lemma {:induction false} PlusKept(mode: Mode, n: nat, amount: nat)
    ensures Plus(mode, Kept(mode, n), amount) == Kept(mode, n + amount)
  {
    KeptSum(mode, amount, amount, n);
  }

  lemma {:induction false} KeptExact(mode: Mode, n: nat)
    ensures Kept(mode, n) <= n
    ensures Kept(mode, n) == n <==> Fits(mode, n)
  {
  }

  // ----- the concrete maps against the log -----

  /** Every bucket is at most its log sum, and is that sum, as kept, from `keep` buckets before the
      latest on. */
  ghost predicate Tracks(mode: Mode, m: map<nat, nat>, unit: nat, keep: nat, log: seq<Call>)
    requires unit > 0
  {
    && (forall k: nat :: Bucket(m, k) <= Sum(log, In(unit, k)))
    && (forall k: nat :: k + keep >= Latest(log) / unit ==> Bucket(m, k) == Kept(mode, Sum(log, In(unit, k))))
  }

  ghost predicate Faithful(mode: Mode, r: Ledger) {
    && r.tracker.total == Kept(mode, Sum(r.log, Any()))
    && Tracks(mode, r.tracker.hourly, HOUR, HOURS_KEPT, r.log)
    && Tracks(mode, r.tracker.daily, DAY, DAYS_KEPT, r.log)
  }

  lemma {:induction false} BumpTracks(mode: Mode, m: map<nat, nat>, unit: nat, keep: nat, log: seq<Call>, c: Call)
    requires (unit == HOUR || unit == DAY) && Tracks(mode, m, unit, keep, log)
    ensures Tracks(mode, Bump(mode, m, c.time / unit, c.amount, keep), unit, keep, log + [c])
  {
    LatestPush(log, c);
    var m' := Bump(mode, m, c.time / unit, c.amount, keep);
    var latest, latest' := Latest(log), Latest(log + [c]);
    QuotientMonotone(latest, latest', unit);
    QuotientMonotone(c.time, latest', unit);
    forall k: nat
      ensures Bucket(m', k) <= Sum(log + [c], In(unit, k))
      ensures k + keep >= latest' / unit ==> Bucket(m', k) == Kept(mode, Sum(log + [c], In(unit, k)))
    {
      SumPush(log, c, In(unit, k));
      assert Bucket(m, k) <= Sum(log, In(unit, k));
      PlusKept(mode, Sum(log, In(unit, k)), c.amount);
      PlusAtMost(mode, Bucket(m, k), c.amount);
      hide Plus, Kept;
    }
  }

  lemma {:induction false} PlusAtMost(mode: Mode, a: nat, b: nat)
    ensures Plus(mode, a, b) <= a + b
  {
  }

  lemma {:induction false} QuotientMonotone(a: nat, b: nat, unit: nat)
    requires (unit == HOUR || unit == DAY) && a <= b
    ensures a / unit <= b / unit
  {
    if unit == HOUR {
      assert a / 3600 <= b / 3600;
    } else {
      assert a / 86400 <= b / 86400;
    }
  }

  lemma {:induction false} NextFaithful(mode: Mode, b: Budget, r: Ledger, c: Call)
    requires Faithful(mode, r)
    ensures Faithful(mode, Next(mode, b, r, c))
  {
    SumPush(r.log, c, Any());
    PlusKept(mode, Sum(r.log, Any()), c.amount);
    BumpTracks(mode, r.tracker.hourly, HOUR, HOURS_KEPT, r.log, c);
    BumpTracks(mode, r.tracker.daily, DAY, DAYS_KEPT, r.log, c);
    hide Tracks, Judge, Plus, Kept, Bump;
  }

  /** For any clock sequence: `total` is the sum of the log, hour buckets from H - 48 on and
      day buckets from D - 2 on equal their log sums, all modulo 2^64 when the additions wrap; and
      no bucket exceeds its log sum. */
  lemma {:induction false} RunFaithful(mode: Mode, b: Budget, calls: seq<Call>)
    ensures Faithful(mode, Exec(mode, b, calls))
  {
    if |calls| > 0 {
      RunFaithful(mode, b, calls[..|calls| - 1]);
      NextFaithful(mode, b, Exec(mode, b, calls[..|calls| - 1]), calls[|calls| - 1]);
    }
  }

  // ----- pruning is invisible -----

  /** A clock reading whose hour bucket cannot have been pruned. */
  ghost predicate FreshReading(log: seq<Call>, time: nat) {
    time / HOUR + HOURS_KEPT >= Latest(log) / HOUR
  }

  function Unpruned(mode: Mode): Mode {
    mode.(prunes := false)
  }

  /** The tracker that never prunes, after the same accepted calls. */
  ghost function Replay(mode: Mode, log: seq<Call>): Tracker {
    if |log| == 0 then FRESH else Record(Unpruned(mode), Replay(mode, log[..|log| - 1]), log[|log| - 1])
  }

  lemma {:induction false} ReplayExact(mode: Mode, log: seq<Call>)
    ensures Replay(mode, log).total == Kept(mode, Sum(log, Any()))
    ensures forall k: nat :: Bucket(Replay(mode, log).hourly, k) == Kept(mode, Sum(log, In(HOUR, k)))
    ensures forall k: nat :: Bucket(Replay(mode, log).daily, k) == Kept(mode, Sum(log, In(DAY, k)))
  {
    if |log| > 0 {
      var before, c := log[..|log| - 1], log[|log| - 1];
      ReplayExact(mode, before);
      ReplayPush(mode, before, c);
      assert before + [c] == log;
      hide Replay, Sum;
    }
  }

  lemma {:induction false} ReplayPush(mode: Mode, log: seq<Call>, c: Call)
    requires Replay(mode, log).total == Kept(mode, Sum(log, Any()))
    requires forall k: nat :: Bucket(Replay(mode, log).hourly, k) == Kept(mode, Sum(log, In(HOUR, k)))
    requires forall k: nat :: Bucket(Replay(mode, log).daily, k) == Kept(mode, Sum(log, In(DAY, k)))
    ensures Replay(mode, log + [c]).total == Kept(mode, Sum(log + [c], Any()))
    ensures forall k: nat :: Bucket(Replay(mode, log + [c]).hourly, k) == Kept(mode, Sum(log + [c], In(HOUR, k)))
    ensures forall k: nat :: Bucket(Replay(mode, log + [c]).daily, k) == Kept(mode, Sum(log + [c], In(DAY, k)))
  {
    assert (log + [c])[..|log|] == log;
    var t := Replay(mode, log);
    assert Replay(mode, log + [c]) == Record(Unpruned(mode), t, c);
    SumPush(log, c, Any());
    PlusKept(mode, Sum(log, Any()), c.amount);
    hide Replay, Kept, Plus, Sum, Bump, Bucket;
    BumpExact(mode, t.hourly, HOUR, HOURS_KEPT, log, c);
    BumpExact(mode, t.daily, DAY, DAYS_KEPT, log, c);
  }

  lemma {:induction false} BumpExact(mode: Mode, m: map<nat, nat>, unit: nat, keep: nat, log: seq<Call>, c: Call)
    requires unit > 0 && forall k: nat :: Bucket(m, k) == Kept(mode, Sum(log, In(unit, k)))
    ensures forall k: nat ::
              Bucket(Bump(Unpruned(mode), m, c.time / unit, c.amount, keep), k)
              == Kept(mode, Sum(log + [c], In(unit, k)))
  {
    hide Kept, Sum, Plus;
    var m' := Bump(Unpruned(mode), m, c.time / unit, c.amount, keep);
    forall k: nat ensures Bucket(m', k) == Kept(mode, Sum(log + [c], In(unit, k))) {
      SumPush(log, c, In(unit, k));
      PlusKept(mode, Sum(log, In(unit, k)), c.amount);
      UnprunedPlus(mode, Bucket(m, k), c.amount);
    }
  }

  lemma {:induction false} UnprunedPlus(mode: Mode, a: nat, b: nat)
    ensures Plus(Unpruned(mode), a, b) == Plus(mode, a, b)
  {
  }

  lemma {:induction false} FreshDay(log: seq<Call>, time: nat)
    requires FreshReading(log, time)
    ensures time / DAY + DAYS_KEPT >= Latest(log) / DAY
  {
    assert time / 86400 == time / 3600 / 24;
    assert Latest(log) / 86400 == Latest(log) / 3600 / 24;
  }

  /** The counters a fresh reading meets. */
  lemma {:induction false} FreshBuckets(mode: Mode, r: Ledger, time: nat)
    requires Faithful(mode, r) && FreshReading(r.log, time)
    ensures Bucket(r.tracker.hourly, time / HOUR) == Kept(mode, Sum(r.log, In(HOUR, time / HOUR)))
    ensures Bucket(r.tracker.daily, time / DAY) == Kept(mode, Sum(r.log, In(DAY, time / DAY)))
    ensures r.tracker.total == Kept(mode, Sum(r.log, Any()))
  {
    FreshDay(r.log, time);
  }

  /** After any run, a reading at hour H - 48 or later is judged as if nothing were ever pruned. */
  lemma {:induction false} PruningInvisible(mode: Mode, b: Budget, calls: seq<Call>, c: Call)
    requires FreshReading(Exec(mode, b, calls).log, c.time)
    ensures SameVerdict(mode, b, calls, c)
  {
    var r := Exec(mode, b, calls);
    RunFaithful(mode, b, calls);
    ReplayExact(mode, r.log);
    FreshBuckets(mode, r, c.time);
  }

  ghost predicate SameVerdict(mode: Mode, b: Budget, calls: seq<Call>, c: Call) {
    var r := Exec(mode, b, calls);
    Judge(mode, b, r.tracker, c) == Judge(Unpruned(mode), b, Replay(mode, r.log), c)
  }

  /** The bound is sharp: with the latest payment in hour `newest`, a reading in hour `hour` is
      judged alike after every run exactly when it is at most 48 hours behind. */
  lemma {:induction false} PruningInvisibleExactly(mode: Mode, newest: nat, hour: nat)
    requires mode.prunes
    ensures (forall b: Budget, calls: seq<Call>, c: Call ::
               Latest(Exec(mode, b, calls).log) / HOUR == newest && c.time / HOUR == hour
               ==> SameVerdict(mode, b, calls, c))
       <==> hour + HOURS_KEPT >= newest
  {
    if hour + HOURS_KEPT >= newest {
      forall b: Budget, calls: seq<Call>, c: Call |
        Latest(Exec(mode, b, calls).log) / HOUR == newest && c.time / HOUR == hour
        ensures SameVerdict(mode, b, calls, c)
      {
        PruningInvisible(mode, b, calls, c);
      }
    } else {
      ForgottenHour(mode, newest, hour);
    }
  }

  /** An hour that was pruned is charged again from zero. */
  lemma {:induction false} ForgottenHour(mode: Mode, newest: nat, hour: nat)
    requires mode.prunes && hour + HOURS_KEPT < newest
    ensures var b := Unlimited().(hourlyMax := Some(1));
            var calls := [Call(hour * HOUR, 1, None), Call(newest * HOUR, 1, None)];
            && Latest(Exec(mode, b, calls).log) / HOUR == newest
            && !SameVerdict(mode, b, calls, calls[0])
  {
    var b := Unlimited().(hourlyMax := Some(1));
    var first, second := Call(hour * HOUR, 1, None), Call(newest * HOUR, 1, None);
    var calls := [first, second];
    var t1 := Record(mode, FRESH, first);
    assert Judge(mode, b, t1, second).Accepted? by {
      assert Bucket(t1.hourly, newest) == 0;
    }
    TwoAccepted(mode, b, first, second);
    var r := Exec(mode, b, calls);
    ReplayExact(mode, r.log);
    TwoSum(first, second, In(HOUR, hour));
    assert Judge(Unpruned(mode), b, Replay(mode, r.log), first) == Exceeded(Hourly) by {
      assert Bucket(Replay(mode, r.log).hourly, hour) == 1;
    }
    assert Judge(mode, b, r.tracker, first) == Accepted by {
      assert Bucket(r.tracker.hourly, hour) == 0;
    }
  }

  lemma {:induction false} TwoAccepted(mode: Mode, b: Budget, first: Call, second: Call)
    requires Judge(mode, b, FRESH, first).Accepted?
    requires Judge(mode, b, Record(mode, FRESH, first), second).Accepted?
    requires first.time <= second.time
    ensures Exec(mode, b, [first, second])
         == Ledger(Record(mode, Record(mode, FRESH, first), second), [first, second])
    ensures Latest([first, second]) == second.time
    ensures FreshClock(mode, b, [first, second])
  {
    hide Judge, Record;
    assert [first][..0] == [] && [first, second][..1] == [first];
    assert [] + [first] == [first] && [first] + [second] == [first, second];
    assert Exec(mode, b, []) == Ledger(FRESH, []);
    assert Exec(mode, b, [first]) == Ledger(Record(mode, FRESH, first), [first]);
    LatestPush([], first);
    LatestPush([first], second);
    QuotientMonotone(first.time, second.time, HOUR);
    assert FreshClock(mode, b, []) && FreshClock(mode, b, [first]);
  }

  lemma {:induction false} TwoSum(first: Call, second: Call, p: Call -> bool)
    ensures Sum([first, second], p) == (if p(first) then first.amount else 0) + if p(second) then second.amount else 0
  {
    assert [] + [first] == [first] && [first] + [second] == [first, second];
    SumPush([first], second, p);
    SumPush([], first, p);
  }

  /** Every reading of a run is fresh when it is made. */
  ghost predicate FreshClock(mode: Mode, b: Budget, calls: seq<Call>) {
    |calls| == 0
    || (var before := calls[..|calls| - 1];
        FreshClock(mode, b, before) && FreshReading(Exec(mode, b, before).log, calls[|calls| - 1].time))
  }

  /** A clock that never goes back gives only fresh readings. */
  lemma {:induction false} MonotoneIsFresh(mode: Mode, b: Budget, calls: seq<Call>)
    requires forall i, j :: 0 <= i < j < |calls| ==> calls[i].time <= calls[j].time
    ensures FreshClock(mode, b, calls)
    ensures |calls| > 0 ==> Latest(Exec(mode, b, calls).log) <= calls[|calls| - 1].time
  {
    if |calls| > 0 {
      var before, c := calls[..|calls| - 1], calls[|calls| - 1];
      MonotoneIsFresh(mode, b, before);
      var r := Exec(mode, b, before);
      LatestPush(r.log, c);
      QuotientMonotone(Latest(r.log), c.time, HOUR);
      hide Judge, Record;
    }
  }

  /** Hence whole runs agree, payment by payment. */
  lemma {:induction false} FreshRunsAgree(mode: Mode, b: Budget, calls: seq<Call>)
    requires FreshClock(mode, b, calls)
    ensures var r := Exec(mode, b, calls); Exec(Unpruned(mode), b, calls) == Ledger(Replay(mode, r.log), r.log)
  {
    if |calls| > 0 {
      var before, c := calls[..|calls| - 1], calls[|calls| - 1];
      FreshRunsAgree(mode, b, before);
      PruningInvisible(mode, b, before, c);
      var r := Exec(mode, b, before);
      assert (r.log + [c])[..|r.log|] == r.log;
      hide Judge, Record;
    }
  }

  // ----- the limits, over whole runs -----

  ghost function LimitOf(e: Budget, unit: nat): Option<nat> {
    if unit == HOUR then e.hourlyMax else e.dailyMax
  }

  /** When a fresh reading is accepted, the shared bucket sum and the shared lifetime sum, as the
      counters keep them, are within the governing limits. */
  lemma {:induction false} AcceptedWithin(mode: Mode, b: Budget, r: Ledger, c: Call, unit: nat)
    requires unit == HOUR || unit == DAY
    requires Faithful(mode, r) && FreshReading(r.log, c.time) && Judge(mode, b, r.tracker, c).Accepted?
    ensures var limit := LimitOf(Effective(b, c.domain), unit);
            limit.Some? ==> Kept(mode, Sum(r.log + [c], In(unit, c.time / unit))) <= limit.value
    ensures var limit := Effective(b, c.domain).totalMax;
            limit.Some? ==> Kept(mode, Sum(r.log + [c], Any())) <= limit.value
  {
    SumPush(r.log, c, Any());
    SumPush(r.log, c, In(unit, c.time / unit));
    FreshBuckets(mode, r, c.time);
    PlusKept(mode, Sum(r.log, Any()), c.amount);
    PlusKept(mode, Sum(r.log, In(unit, c.time / unit)), c.amount);
    hide Plus, Kept, Faithful, Sum, Effective, FreshReading;
  }

  /** A call leaves the sums of the log, as kept, within one of the limits that govern it. */
  ghost predicate Respects(mode: Mode, b: Budget, log: seq<Call>, c: Call, limit: Limit) {
    var e := Effective(b, c.domain);
    match limit
    case PerRequest => Check(e, c.amount)
    case Hourly => e.hourlyMax.Some? ==> Kept(mode, Sum(log + [c], In(HOUR, c.time / HOUR))) <= e.hourlyMax.value
    case Daily => e.dailyMax.Some? ==> Kept(mode, Sum(log + [c], In(DAY, c.time / DAY))) <= e.dailyMax.value
    case Total => e.totalMax.Some? ==> Kept(mode, Sum(log + [c], Any())) <= e.totalMax.value
  }

  lemma {:induction false} RespectsIs(mode: Mode, b: Budget, r: Ledger, c: Call)
    requires Faithful(mode, r) && FreshReading(r.log, c.time)
    ensures var e := Effective(b, c.domain);
            && (Respects(mode, b, r.log, c, PerRequest) <==> Check(e, c.amount))
            && (Respects(mode, b, r.log, c, Hourly) <==>
                !Exceeds(mode, e.hourlyMax, Bucket(r.tracker.hourly, c.time / HOUR), c.amount))
            && (Respects(mode, b, r.log, c, Daily) <==>
                !Exceeds(mode, e.dailyMax, Bucket(r.tracker.daily, c.time / DAY), c.amount))
            && (Respects(mode, b, r.log, c, Total) <==> !Exceeds(mode, e.totalMax, r.tracker.total, c.amount))
  {
    FreshBuckets(mode, r, c.time);
    SumPush(r.log, c, In(HOUR, c.time / HOUR));
    SumPush(r.log, c, In(DAY, c.time / DAY));
    SumPush(r.log, c, Any());
    PlusKept(mode, Sum(r.log, In(HOUR, c.time / HOUR)), c.amount);
    PlusKept(mode, Sum(r.log, In(DAY, c.time / DAY)), c.amount);
    PlusKept(mode, Sum(r.log, Any()), c.amount);
    hide Sum, Faithful, Plus, Kept, Effective;
  }

  /** After any run, a fresh reading is accepted exactly when it respects all four limits on the
      payments accepted so far; a refusal names a limit that it does not respect. */
  lemma {:induction false} AcceptedExactly(mode: Mode, b: Budget, calls: seq<Call>, c: Call)
    requires FreshReading(Exec(mode, b, calls).log, c.time)
    ensures var r := Exec(mode, b, calls);
            var verdict := Judge(mode, b, r.tracker, c);
            && (verdict.Accepted? <==> forall limit: Limit :: Respects(mode, b, r.log, c, limit))
            && (verdict.Exceeded? ==> !Respects(mode, b, r.log, c, verdict.limit))
  {
    RunFaithful(mode, b, calls);
    var r := Exec(mode, b, calls);
    RespectsIs(mode, b, r, c);
    hide Exec, Respects, Exceeds, Check, Effective, Faithful, FreshReading;
    var verdict := Judge(mode, b, r.tracker, c);
    assert verdict.Accepted? <==>
      (Respects(mode, b, r.log, c, PerRequest) && Respects(mode, b, r.log, c, Hourly)
       && Respects(mode, b, r.log, c, Daily) && Respects(mode, b, r.log, c, Total));
  }

  /** The accepted calls of a bucket under one override, or (`None`) under the base budget. */
  ghost function Own(b: Budget, domain: Option<string>, unit: nat, k: nat): Call -> bool
    requires unit > 0
  {
    Both(In(unit, k), Under(b, Governing(b, domain)))
  }

  /** What one override (or the base budget) itself accepted in a bucket stays within its own
      limit, although every domain draws on the same counters, as long as the bucket fits. */
  lemma {:induction false} OwnSpendWithin(mode: Mode, b: Budget, calls: seq<Call>, domain: Option<string>,
                                          unit: nat, k: nat)
    requires unit == HOUR || unit == DAY
    requires FreshClock(mode, b, calls) && Fits(mode, Sum(Exec(mode, b, calls).log, In(unit, k)))
    ensures var limit := LimitOf(Effective(b, domain), unit);
            limit.Some? ==> Sum(Exec(mode, b, calls).log, Own(b, domain, unit, k)) <= limit.value
  {
    if |calls| > 0 {
      var before, c := calls[..|calls| - 1], calls[|calls| - 1];
      var r := Exec(mode, b, before);
      SumPush(r.log, c, In(unit, k));
      OwnSpendWithin(mode, b, before, domain, unit, k);
      RunFaithful(mode, b, before);
      var own := Own(b, domain, unit, k);
      if Judge(mode, b, r.tracker, c).Accepted? {
        SumPush(r.log, c, own);
        if own(c) {
          AcceptedWithin(mode, b, r, c, unit);
          KeptExact(mode, Sum(r.log + [c], In(unit, k)));
          SumMonotone(r.log + [c], own, In(unit, k));
        }
      }
    }
  }

  /** The lifetime limit needs no assumption on the clock. */
  lemma {:induction false} OwnLifetimeWithin(mode: Mode, b: Budget, calls: seq<Call>, domain: Option<string>)
    requires Fits(mode, Sum(Exec(mode, b, calls).log, Any()))
    ensures var limit := Effective(b, domain).totalMax;
            limit.Some? ==> Sum(Exec(mode, b, calls).log, Under(b, Governing(b, domain))) <= limit.value
  {
    if |calls| > 0 {
      var before, c := calls[..|calls| - 1], calls[|calls| - 1];
      var r := Exec(mode, b, before);
      SumPush(r.log, c, Any());
      OwnLifetimeWithin(mode, b, before, domain);
      RunFaithful(mode, b, before);
      if Judge(mode, b, r.tracker, c).Accepted? {
        OwnLifetimePush(mode, b, r, c, domain);
      }
      hide Judge, Record, Effective, Faithful, Sum, Governing;
    }
  }

  lemma {:induction false} OwnLifetimePush(mode: Mode, b: Budget, r: Ledger, c: Call, domain: Option<string>)
    requires Faithful(mode, r) && Judge(mode, b, r.tracker, c).Accepted?
    requires Fits(mode, Sum(r.log + [c], Any()))
    ensures var limit, own := Effective(b, domain).totalMax, Under(b, Governing(b, domain));
            limit.Some? && Sum(r.log, own) <= limit.value ==> Sum(r.log + [c], own) <= limit.value
  {
    var own := Under(b, Governing(b, domain));
    SumPush(r.log, c, Any());
    SumPush(r.log, c, own);
    SumMonotone(r.log, own, Any());
    LifetimeAccepted(mode, b, r.tracker, c, Sum(r.log, Any()));
    assert own(c) ==> Effective(b, c.domain) == Effective(b, domain);
    hide Judge, Kept, Effective, Sum, Governing;
  }

  lemma {:induction false} LifetimeAccepted(mode: Mode, b: Budget, t: Tracker, c: Call, spent: nat)
    requires Judge(mode, b, t, c).Accepted? && t.total == Kept(mode, spent) && Fits(mode, spent + c.amount)
    ensures var limit := Effective(b, c.domain).totalMax; limit.Some? ==> spent + c.amount <= limit.value
  {
    PlusKept(mode, spent, c.amount);
    KeptExact(mode, spent + c.amount);
    hide Plus, Kept;
  }

  /** Every accepted payment is within the per-request limit that governs it. */
  lemma {:induction false} EachWithinPerRequest(mode: Mode, b: Budget, calls: seq<Call>, i: nat)
    requires i < |Exec(mode, b, calls).log|
    ensures var c := Exec(mode, b, calls).log[i]; Check(Effective(b, c.domain), c.amount)
  {
    hide Record;
    if i < |Exec(mode, b, calls[..|calls| - 1]).log| {
      EachWithinPerRequest(mode, b, calls[..|calls| - 1], i);
    }
  }

  // ----- the sliding window -----

  ghost predicate Capped(b: Budget, unit: nat, cap: nat) {
    forall domain: Option<string> ::
      LimitOf(Effective(b, domain), unit).Some? && LimitOf(Effective(b, domain), unit).value <= cap
  }

  ghost predicate AtMost(calls: seq<Call>, most: nat) {
    forall c :: c in calls ==> c.amount <= most
  }

  /** With 64-bit counters the cap must leave room for one more call of the largest amount. */
  ghost predicate Roomy(mode: Mode, calls: seq<Call>, cap: nat, most: nat) {
    mode.wraps ==> AtMost(calls, most) && cap + most < U64
  }

  lemma {:induction false} BucketCapped(mode: Mode, b: Budget, calls: seq<Call>, unit: nat, cap: nat, most: nat, k: nat)
    requires unit == HOUR || unit == DAY
    requires FreshClock(mode, b, calls) && Capped(b, unit, cap) && Roomy(mode, calls, cap, most)
    ensures Sum(Exec(mode, b, calls).log, In(unit, k)) <= cap
  {
    if |calls| > 0 {
      var before, c := calls[..|calls| - 1], calls[|calls| - 1];
      BucketCapped(mode, b, before, unit, cap, most, k);
      RunFaithful(mode, b, before);
      var r := Exec(mode, b, before);
      hide Judge, Record, Faithful, Sum, FreshReading, Capped;
      if Judge(mode, b, r.tracker, c).Accepted? {
        BucketPush(mode, b, r, c, unit, cap, most, k);
      }
    }
  }

  lemma {:induction false} BucketPush(mode: Mode, b: Budget, r: Ledger, c: Call, unit: nat, cap: nat, most: nat, k: nat)
    requires (unit == HOUR || unit == DAY) && Capped(b, unit, cap) && Roomy(mode, [c], cap, most)
    requires Faithful(mode, r) && FreshReading(r.log, c.time) && Judge(mode, b, r.tracker, c).Accepted?
    requires Sum(r.log, In(unit, k)) <= cap
    ensures Sum(r.log + [c], In(unit, k)) <= cap
  {
    SumPush(r.log, c, In(unit, k));
    AcceptedWithin(mode, b, r, c, unit);
    hide Judge, Faithful, FreshReading, Sum, Kept, Effective, LimitOf;
    KeptExact(mode, Sum(r.log + [c], In(unit, k)));
    assert LimitOf(Effective(b, c.domain), unit).value <= cap;
    assert c in [c];
  }

  lemma {:induction false} BucketBounds(unit: nat, k: nat, time: nat)
    requires unit == HOUR || unit == DAY
    ensures time / unit == k <==> k * unit <= time < (k + 1) * unit
  {
    if unit == HOUR {
      assert time / 3600 == k <==> k * 3600 <= time < (k + 1) * 3600;
    } else {
      assert time / 86400 == k <==> k * 86400 <= time < (k + 1) * 86400;
    }
  }

  /** `n` consecutive buckets are the seconds they span. */
  lemma {:induction false} SpanPush(log: seq<Call>, unit: nat, first: nat, n: nat)
    requires unit == HOUR || unit == DAY
    ensures Sum(log, Between(first * unit, (first + n + 1) * unit))
         == Sum(log, Between(first * unit, (first + n) * unit)) + Sum(log, In(unit, first + n))
  {
    var p, q := Between(first * unit, (first + n) * unit), In(unit, first + n);
    var r := Between(first * unit, (first + n + 1) * unit);
    assert first * unit <= (first + n) * unit <= (first + n + 1) * unit;
    forall c: Call ensures r(c) <==> p(c) || q(c) ensures !(p(c) && q(c)) {
      BucketBounds(unit, first + n, c.time);
    }
    SumDisjoint(log, p, q, r);
  }

  lemma {:induction false} SpanCapped(mode: Mode, b: Budget, calls: seq<Call>, unit: nat, cap: nat, most: nat,
                                      first: nat, n: nat)
    requires unit == HOUR || unit == DAY
    requires FreshClock(mode, b, calls) && Capped(b, unit, cap) && Roomy(mode, calls, cap, most)
    ensures Sum(Exec(mode, b, calls).log, Between(first * unit, (first + n) * unit)) <= n * cap
  {
    var log := Exec(mode, b, calls).log;
    hide Exec, FreshClock, Sum, Capped, Roomy;
    if n == 0 {
      SumEmpty(log, Between(first * unit, (first + n) * unit));
    } else {
      SpanCapped(mode, b, calls, unit, cap, most, first, n - 1);
      SpanPush(log, unit, first, n - 1);
      BucketCapped(mode, b, calls, unit, cap, most, first + n - 1);
      assert n * cap == (n - 1) * cap + cap;
    }
  }

  lemma {:induction false} SumEmpty(log: seq<Call>, p: Call -> bool)
    requires forall c :: !p(c)
    ensures Sum(log, p) == 0
  {
    if |log| > 0 {
      SumEmpty(log[..|log| - 1], p);
    }
  }

  /** Any `width` consecutive seconds hold at most (ceil(width / unit) + 1) times the cap:
      twice the hourly limit in any 3600 seconds, twice the daily limit in any 86400. */
  lemma {:induction false} SlidingWindow(mode: Mode, b: Budget, calls: seq<Call>, unit: nat, cap: nat, most: nat,
                                         start: nat, width: nat)
    requires unit == HOUR || unit == DAY
    requires FreshClock(mode, b, calls) && Capped(b, unit, cap) && Roomy(mode, calls, cap, most)
    ensures Sum(Exec(mode, b, calls).log, Between(start, start + width)) <= ((width + unit - 1) / unit + 1) * cap
  {
    var first, n := start / unit, (width + unit - 1) / unit + 1;
    assert first * unit <= start && start + width <= (first + n) * unit by {
      WindowSpan(unit, start, width);
    }
    SumMonotone(Exec(mode, b, calls).log, Between(start, start + width), Between(first * unit, (first + n) * unit));
    SpanCapped(mode, b, calls, unit, cap, most, first, n);
  }

  lemma {:induction false} WindowSpan(unit: nat, start: nat, width: nat)
    requires unit == HOUR || unit == DAY
    ensures start / unit * unit <= start
    ensures start + width <= (start / unit + ((width + unit - 1) / unit + 1)) * unit
  {
    if unit == HOUR {
      assert start + width <= (start / 3600 + ((width + 3599) / 3600 + 1)) * 3600;
    } else {
      assert start + width <= (start / 86400 + ((width + 86399) / 86400 + 1)) * 86400;
    }
  }

  /** The factor two is attained within two seconds, so the hour is not a rolling one. */
  lemma {:induction false} WindowAttained(mode: Mode, cap: nat)
    requires Fits(mode, cap)
    ensures var b := Unlimited().(hourlyMax := Some(cap));
            var calls := [Call(3599, cap, None), Call(3600, cap, None)];
            && Capped(b, HOUR, cap) && FreshClock(mode, b, calls)
            && Sum(Exec(mode, b, calls).log, Between(3599, 3601)) == 2 * cap
  {
    var b := Unlimited().(hourlyMax := Some(cap));
    var first, second := Call(3599, cap, None), Call(3600, cap, None);
    var t1 := Record(mode, FRESH, first);
    assert Judge(mode, b, t1, second).Accepted? by {
      assert Bucket(t1.hourly, 1) == 0;
    }
    TwoAccepted(mode, b, first, second);
    TwoSum(first, second, Between(3599, 3601));
  }

  // ----- hours, days and lifetime reconciled -----

  /** Sum of `n` consecutive buckets. */
  ghost function Range(m: map<nat, nat>, first: nat, n: nat): nat {
    if n == 0 then 0 else Range(m, first, n - 1) + Bucket(m, first + n - 1)
  }

  lemma {:induction false} RangeAtMost(mode: Mode, m: map<nat, nat>, unit: nat, keep: nat, log: seq<Call>,
                                       first: nat, n: nat)
    requires unit == HOUR || unit == DAY
    requires Tracks(mode, m, unit, keep, log)
    ensures var sum := Sum(log, Between(first * unit, (first + n) * unit));
            && Range(m, first, n) <= sum
            && (first + keep >= Latest(log) / unit ==> Kept(mode, Range(m, first, n)) == Kept(mode, sum))
  {
    if n == 0 {
      SumEmpty(log, Between(first * unit, (first + n) * unit));
    } else {
      var k := first + n - 1;
      RangeAtMost(mode, m, unit, keep, log, first, n - 1);
      SpanPush(log, unit, first, n - 1);
      assert Bucket(m, k) <= Sum(log, In(unit, k));
      if first + keep >= Latest(log) / unit {
        KeptSum(mode, Range(m, first, n - 1), Sum(log, Between(first * unit, k * unit)), Sum(log, In(unit, k)));
      }
      hide Kept, Sum;
    }
  }

  /** The seconds of a day are its 24 hours. */
  lemma {:induction false} DaySum(log: seq<Call>, day: nat)
    ensures Sum(log, In(DAY, day)) == Sum(log, Between(24 * day * HOUR, (24 * day + 24) * HOUR))
  {
    forall c: Call ensures In(DAY, day)(c) <==> Between(24 * day * HOUR, (24 * day + 24) * HOUR)(c) {
      BucketBounds(DAY, day, c.time);
    }
    SumCongruent(log, In(DAY, day), Between(24 * day * HOUR, (24 * day + 24) * HOUR));
  }

  /** Day buckets D and D - 1 are the sums of their 24 hour buckets as kept; while the day fits,
      bucket D - 2 is at least the sum of its surviving hours. */
  lemma {:induction false} DaysReconciled(mode: Mode, b: Budget, calls: seq<Call>, day: nat)
    ensures var r := Exec(mode, b, calls);
            var today, hours := Latest(r.log) / DAY, Range(r.tracker.hourly, 24 * day, 24);
            && (day <= today <= day + 1 ==> Bucket(r.tracker.daily, day) == Kept(mode, hours))
            && (today <= day + 2 && Fits(mode, Sum(r.log, In(DAY, day))) ==> Bucket(r.tracker.daily, day) >= hours)
  {
    var r := Exec(mode, b, calls);
    RunFaithful(mode, b, calls);
    RangeAtMost(mode, r.tracker.hourly, HOUR, HOURS_KEPT, r.log, 24 * day, 24);
    DaySum(r.log, day);
    KeptExact(mode, Sum(r.log, In(DAY, day)));
    assert Latest(r.log) / 86400 == Latest(r.log) / 3600 / 24;
    hide Sum, Range, Exec, Kept;
  }

  /** Hours, days and lifetime agree, and the lifetime total covers any range of retained days. */
  lemma {:induction false} Reconciled(mode: Mode, b: Budget, calls: seq<Call>, day: nat)
    requires Fits(mode, Sum(Exec(mode, b, calls).log, Any()))
    ensures var r := Exec(mode, b, calls);
            var today := Latest(r.log) / DAY;
            && (day <= today <= day + 1 ==> Bucket(r.tracker.daily, day) == Range(r.tracker.hourly, 24 * day, 24))
            && (today <= day + 2 ==> Bucket(r.tracker.daily, day) >= Range(r.tracker.hourly, 24 * day, 24))
            && (forall n: nat :: Range(r.tracker.daily, day, n) <= r.tracker.total)
  {
    var r := Exec(mode, b, calls);
    RunFaithful(mode, b, calls);
    DaysReconciled(mode, b, calls, day);
    RangeAtMost(mode, r.tracker.hourly, HOUR, HOURS_KEPT, r.log, 24 * day, 24);
    DaySum(r.log, day);
    SumMonotone(r.log, In(DAY, day), Any());
    KeptExact(mode, Range(r.tracker.hourly, 24 * day, 24));
    KeptExact(mode, Sum(r.log, Any()));
    forall n: nat ensures Range(r.tracker.daily, day, n) <= r.tracker.total {
      RangeAtMost(mode, r.tracker.daily, DAY, DAYS_KEPT, r.log, day, n);
      SumMonotone(r.log, Between(day * DAY, (day + n) * DAY), Any());
    }
    hide Sum, Range, Exec, Kept;
  }

  ghost predicate Retained(m: map<nat, nat>, newest: nat, keep: nat) {
    forall k :: k in m ==> SatSub(newest, keep) <= k <= newest
  }

  /** With fresh readings the maps hold at most 49 hours and 3 days. */
  lemma {:induction false} MapsStaySmall(mode: Mode, b: Budget, calls: seq<Call>)
    requires mode.prunes && FreshClock(mode, b, calls)
    ensures var r := Exec(mode, b, calls);
            && Retained(r.tracker.hourly, Latest(r.log) / HOUR, HOURS_KEPT) && |r.tracker.hourly| <= 49
            && Retained(r.tracker.daily, Latest(r.log) / DAY, DAYS_KEPT) && |r.tracker.daily| <= 3
  {
    if |calls| > 0 {
      var before, c := calls[..|calls| - 1], calls[|calls| - 1];
      MapsStaySmall(mode, b, before);
      var r := Exec(mode, b, before);
      LatestPush(r.log, c);
      FreshDay(r.log, c.time);
      BumpRetained(mode, r.tracker.hourly, HOUR, Latest(r.log), c, HOURS_KEPT);
      BumpRetained(mode, r.tracker.daily, DAY, Latest(r.log), c, DAYS_KEPT);
      hide Bump, Retained;
    }
    var r := Exec(mode, b, calls);
    RetainedSize(r.tracker.hourly, Latest(r.log) / HOUR, HOURS_KEPT);
    RetainedSize(r.tracker.daily, Latest(r.log) / DAY, DAYS_KEPT);
  }

  lemma {:induction false} BumpRetained(mode: Mode, m: map<nat, nat>, unit: nat, latest: nat, c: Call, keep: nat)
    requires mode.prunes && (unit == HOUR || unit == DAY)
    requires Retained(m, latest / unit, keep) && c.time / unit + keep >= latest / unit
    ensures Retained(Bump(mode, m, c.time / unit, c.amount, keep), Max(latest, c.time) / unit, keep)
  {
    if c.time >= latest {
      QuotientMonotone(latest, c.time, unit);
    } else {
      QuotientMonotone(c.time, latest, unit);
    }
  }

  lemma {:induction false} RetainedSize(m: map<nat, nat>, newest: nat, keep: nat)
    requires Retained(m, newest, keep)
    ensures |m| <= keep + 1
  {
    IntervalSize(m.Keys, SatSub(newest, keep), newest + 1);
  }

  lemma {:induction false} IntervalSize(s: set<nat>, lo: nat, hi: nat)
    requires lo <= hi && forall k :: k in s ==> lo <= k < hi
    ensures |s| <= hi - lo
    decreases hi - lo
  {
    if lo < hi {
      IntervalSize(s - {hi - 1}, lo, hi - 1);
    } else {
      assert s == {};
    }
  }

  // ----- machine arithmetic -----

  /** No bucket holds more than the lifetime total. */
  ghost predicate BelowTotal(t: Tracker) {
    && (forall k: nat :: Bucket(t.hourly, k) <= t.total)
    && (forall k: nat :: Bucket(t.daily, k) <= t.total)
  }

  lemma {:induction false} FaithfulBelow(mode: Mode, r: Ledger)
    requires Faithful(mode, r) && Fits(mode, Sum(r.log, Any()))
    ensures BelowTotal(r.tracker)
  {
    forall k: nat ensures Bucket(r.tracker.hourly, k) <= r.tracker.total {
      assert Bucket(r.tracker.hourly, k) <= Sum(r.log, In(HOUR, k));
      SumMonotone(r.log, In(HOUR, k), Any());
    }
    forall k: nat ensures Bucket(r.tracker.daily, k) <= r.tracker.total {
      assert Bucket(r.tracker.daily, k) <= Sum(r.log, In(DAY, k));
      SumMonotone(r.log, In(DAY, k), Any());
    }
  }

  /** One comparison makes all six additions of a call exact, and no weaker one does. */
  lemma {:induction false} OneGuard(b: Budget, t: Tracker, c: Call)
    requires BelowTotal(t) && t.total < U64 && c.amount < U64
    ensures t.total + c.amount < U64 ==> Judge(CODE, b, t, c) == Judge(EXACT, b, t, c)
    ensures t.total + c.amount < U64 <==> Record(CODE, t, c) == Record(EXACT, t, c)
  {
    var hour, day := Bucket(t.hourly, c.time / HOUR), Bucket(t.daily, c.time / DAY);
    assert hour <= t.total && day <= t.total;
    AddExact(t.total, c.amount);
    AddExact(hour, c.amount);
    AddExact(day, c.amount);
    hide Add64;
  }

  lemma {:induction false} AddExact(a: nat, b: nat)
    ensures Add64(a, b) == a + b <==> a + b < U64
  {
  }

  /** The guard at every call of a run. */
  ghost predicate Guarded(b: Budget, calls: seq<Call>) {
    |calls| == 0
    || (var before, c := calls[..|calls| - 1], calls[|calls| - 1];
        Guarded(b, before) && Exec(EXACT, b, before).tracker.total + c.amount < U64)
  }

  /** Under the guard the 64-bit tracker is the ideal one at every step of the run. */
  lemma {:induction false} GuardedExact(b: Budget, calls: seq<Call>)
    requires Guarded(b, calls)
    ensures Exec(CODE, b, calls) == Exec(EXACT, b, calls)
  {
    if |calls| > 0 {
      var before, c := calls[..|calls| - 1], calls[|calls| - 1];
      GuardedExact(b, before);
      RunFaithful(EXACT, b, before);
      FaithfulBelow(EXACT, Exec(EXACT, b, before));
      OneGuard(b, Exec(EXACT, b, before).tracker, c);
    }
  }

  /** It is enough that everything ever asked for fits in 64 bits. */
  lemma {:induction false} SmallRunGuarded(b: Budget, calls: seq<Call>)
    requires Sum(calls, Any()) < U64
    ensures Guarded(b, calls) && Exec(EXACT, b, calls).tracker.total <= Sum(calls, Any())
  {
    if |calls| > 0 {
      SmallRunGuarded(b, calls[..|calls| - 1]);
    }
  }

  /** Wrapping can only let more through. */
  lemma {:induction false} RefusedByBoth(b: Budget, t: Tracker, c: Call)
    requires Judge(CODE, b, t, c).Exceeded?
    ensures Judge(EXACT, b, t, c).Exceeded?
  {
    PlusAtMost(CODE, t.total, c.amount);
    PlusAtMost(CODE, Bucket(t.hourly, c.time / HOUR), c.amount);
    PlusAtMost(CODE, Bucket(t.daily, c.time / DAY), c.amount);
    hide Add64;
  }

  /** For every run: the 64-bit tracker is the ideal one exactly when what it accepted (whatever it
      refused) sums to less than 2^64. */
  lemma {:induction false} RecordsFitExactly(b: Budget, calls: seq<Call>)
    ensures Exec(CODE, b, calls) == Exec(EXACT, b, calls) <==> Sum(Exec(CODE, b, calls).log, Any()) < U64
  {
    var r := Exec(CODE, b, calls);
    RunFaithful(CODE, b, calls);
    RunFaithful(EXACT, b, calls);
    KeptExact(CODE, Sum(r.log, Any()));
    if Sum(r.log, Any()) < U64 {
      RecordsFit(b, calls);
    }
  }

  lemma {:induction false} RecordsFit(b: Budget, calls: seq<Call>)
    requires Sum(Exec(CODE, b, calls).log, Any()) < U64
    ensures Exec(CODE, b, calls) == Exec(EXACT, b, calls)
  {
    if |calls| > 0 {
      var before, c := calls[..|calls| - 1], calls[|calls| - 1];
      var r := Exec(CODE, b, before);
      SumPush(r.log, c, Any());
      RecordsFit(b, before);
      RunFaithful(EXACT, b, before);
      FaithfulBelow(EXACT, r);
      if Judge(CODE, b, r.tracker, c).Accepted? {
        OneGuard(b, r.tracker, c);
      } else {
        RefusedByBoth(b, r.tracker, c);
      }
      hide Judge, Record, BelowTotal, Faithful;
    }
  }
}
