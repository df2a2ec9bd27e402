/** Which budgets keep the hourly and daily limits of the 64-bit tracker over every run with fresh
    readings. `most` bounds the amount of a single call. */
module BudgetWindows {
  import opened Wrappers
  import opened Budget
  import opened BudgetLaws
  import opened BudgetConfig
  import opened BudgetAtOnce

  // ----- one unit limited by every budget -----

  /** Every budget that lets anything through has a limit for this unit that leaves room for one
      more call. */
  ghost predicate UnitCovered(b: Budget, unit: nat, most: nat) {
    forall d: Option<string>, d': Option<string> ::
      Largest(Effective(b, d), most) > 0 ==>
        && LimitOf(Effective(b, d), unit).Some?
        && LimitOf(Effective(b, d), unit).value + Largest(Effective(b, d'), most) < U64
  }

  lemma {:induction false} UnitFits(b: Budget, most: nat, calls: seq<Call>, unit: nat, k: nat)
    requires unit == HOUR || unit == DAY
    requires UnitCovered(b, unit, most) && most < U64 && AtMost(calls, most) && FreshClock(CODE, b, calls)
    ensures RoomLeft(b, most, Sum(Exec(CODE, b, calls).log, In(unit, k)))
  {
    if |calls| > 0 {
      var before, c := calls[..|calls| - 1], calls[|calls| - 1];
      UnitFits(b, most, before, unit, k);
      var r := Exec(CODE, b, before);
      RunFaithful(CODE, b, before);
      hide Judge, Record, Faithful, UnitCovered, RoomLeft, Sum, FreshReading;
      if Judge(CODE, b, r.tracker, c).Accepted? {
        UnitPush(b, most, unit, r, c, k);
      }
    }
  }

  lemma {:induction false} UnitPush(b: Budget, most: nat, unit: nat, r: Ledger, c: Call, k: nat)
    requires (unit == HOUR || unit == DAY) && UnitCovered(b, unit, most) && c.amount <= most
    requires Faithful(CODE, r) && FreshReading(r.log, c.time) && Judge(CODE, b, r.tracker, c).Accepted?
    requires RoomLeft(b, most, Sum(r.log, In(unit, k)))
    ensures RoomLeft(b, most, Sum(r.log + [c], In(unit, k)))
  {
    SumPush(r.log, c, In(unit, k));
    if c.time / unit == k {
      AcceptedWithin(CODE, b, r, c, unit);
      assert Check(Effective(b, c.domain), c.amount);
      hide Judge, Faithful, FreshReading, UnitCovered, RoomLeft, Sum, Kept, Effective, Check;
      UnitRoom(b, most, unit, c, Sum(r.log, In(unit, k)));
    }
  }

  lemma {:induction false} UnitRoom(b: Budget, most: nat, unit: nat, c: Call, spent: nat)
    requires UnitCovered(b, unit, most) && RoomLeft(b, most, spent) && c.amount <= most
    requires Check(Effective(b, c.domain), c.amount)
    requires var limit := LimitOf(Effective(b, c.domain), unit);
             limit.Some? ==> Kept(CODE, spent + c.amount) <= limit.value
    ensures RoomLeft(b, most, spent + c.amount)
  {
    var e := Effective(b, c.domain);
    assert c.amount <= Largest(e, most);
    KeptExact(CODE, spent + c.amount);
    hide Effective, Largest, Kept, LimitOf;
  }

  // ----- any mixture of small limits -----

  /** One of the windows is limited, or the lifetime total. */
  predicate Windowed(e: Budget, cap: nat) {
    (e.hourlyMax.Some? && e.hourlyMax.value <= cap) || (e.dailyMax.Some? && e.dailyMax.value <= cap)
  }

  predicate TotalLimited(e: Budget, cap: nat) {
    e.totalMax.Some? && e.totalMax.value <= cap
  }

  /** What an hour then holds at most. */
  function HourCap(most: nat, cap: nat): nat {
    2 * cap + most
  }

  /** Every budget that lets anything through has at least one of its three limits within `cap`, and
      97 hours of that fit in 64 bits. */
  ghost predicate Limited(b: Budget, most: nat, cap: nat) {
    && 98 * HourCap(most, cap) < U64
    && forall d: Option<string> ::
         Largest(Effective(b, d), most) > 0 ==> Windowed(Effective(b, d), cap) || TotalLimited(Effective(b, d), cap)
  }

  /** The log of a run with fresh readings: each call respected the limits that govern it. */
  ghost predicate Lawful(b: Budget, log: seq<Call>) {
    |log| == 0
    || (var before, c := log[..|log| - 1], log[|log| - 1];
        && Lawful(b, before) && FreshReading(before, c.time)
        && forall limit: Limit :: Respects(CODE, b, before, c, limit))
  }

  lemma {:induction false} RunLawful(b: Budget, calls: seq<Call>)
    requires FreshClock(CODE, b, calls)
    ensures Lawful(b, Exec(CODE, b, calls).log)
  {
    if |calls| > 0 {
      var before, c := calls[..|calls| - 1], calls[|calls| - 1];
      RunLawful(b, before);
      var r := Exec(CODE, b, before);
      hide Judge, Record, FreshReading, Respects;
      AcceptedExactly(CODE, b, before, c);
      if Judge(CODE, b, r.tracker, c).Accepted? {
        assert (r.log + [c])[..|r.log|] == r.log;
      }
    }
  }

  lemma {:induction false} LogAtMost(b: Budget, most: nat, calls: seq<Call>)
    requires AtMost(calls, most)
    ensures AtMost(Exec(CODE, b, calls).log, most)
  {
    if |calls| > 0 {
      LogAtMost(b, most, calls[..|calls| - 1]);
      hide Judge, Record;
    }
  }

  lemma {:induction false} LawfulPrefix(b: Budget, log: seq<Call>, i: nat)
    requires Lawful(b, log) && i <= |log|
    ensures Lawful(b, log[..i])
    ensures i < |log| ==>
      FreshReading(log[..i], log[i].time) && forall limit :: Respects(CODE, b, log[..i], log[i], limit)
  {
    if i < |log| {
      hide FreshReading, Respects;
      LawfulPrefix(b, log[..|log| - 1], i);
      assert i < |log| - 1 ==> log[..|log| - 1][..i] == log[..i];
    } else {
      assert log[..i] == log;
    }
  }

  lemma {:induction false} LatestAtLeast(log: seq<Call>, i: nat)
    requires i < |log|
    ensures log[i].time <= Latest(log)
  {
    if i < |log| - 1 {
      LatestAtLeast(log[..|log| - 1], i);
    }
  }

  lemma {:induction false} SumSplit(log: seq<Call>, i: nat, p: Call -> bool)
    requires i <= |log|
    ensures Sum(log, p) == Sum(log[..i], p) + Sum(log[i..], p)
  {
    SumConcat(log[..i], log[i..], p);
    assert log[..i] + log[i..] == log;
  }

  // ----- no hour holds more than the cap -----

  ghost predicate HoursWithin(log: seq<Call>, cap: nat) {
    forall k: nat :: Sum(log, In(HOUR, k)) <= cap
  }

  /** `n` hours hold at most `n` times as much. */
  lemma {:induction false} SpanWithin(log: seq<Call>, cap: nat, first: nat, n: nat)
    requires HoursWithin(log, cap)
    ensures Sum(log, Between(first * HOUR, (first + n) * HOUR)) <= n * cap
  {
    hide Sum;
    if n == 0 {
      SumEmpty(log, Between(first * HOUR, (first + n) * HOUR));
    } else {
      SpanWithin(log, cap, first, n - 1);
      SpanPush(log, HOUR, first, n - 1);
      assert Sum(log, In(HOUR, first + n - 1)) <= cap;
      assert n * cap == (n - 1) * cap + cap;
    }
  }

  lemma {:induction false} DayWithin(log: seq<Call>, cap: nat, day: nat)
    requires HoursWithin(log, cap)
    ensures Sum(log, In(DAY, day)) <= 24 * cap
  {
    DaySum(log, day);
    SpanWithin(log, cap, 24 * day, 24);
    hide Sum, HoursWithin;
  }

  lemma {:induction false} HoursPrefix(log: seq<Call>, cap: nat, i: nat)
    requires HoursWithin(log, cap) && i <= |log|
    ensures HoursWithin(log[..i], cap)
  {
    hide Sum;
    forall k: nat ensures Sum(log[..i], In(HOUR, k)) <= cap {
      SumSplit(log, i, In(HOUR, k));
      assert Sum(log, In(HOUR, k)) <= cap;
    }
  }

  /** A call whose hour or day is limited leaves its hour within that limit. */
  lemma {:induction false} WindowedPush(b: Budget, most: nat, cap: nat, log: seq<Call>, c: Call)
    requires Limited(b, most, cap) && HoursWithin(log, HourCap(most, cap)) && c.amount <= most
    requires forall limit :: Respects(CODE, b, log, c, limit)
    requires Windowed(Effective(b, c.domain), cap)
    ensures Sum(log + [c], In(HOUR, c.time / HOUR)) <= cap
  {
    var e, hour, day := Effective(b, c.domain), In(HOUR, c.time / HOUR), In(DAY, c.time / DAY);
    assert Respects(CODE, b, log, c, Hourly) && Respects(CODE, b, log, c, Daily);
    assert Sum(log, hour) <= HourCap(most, cap);
    DayWithin(log, HourCap(most, cap), c.time / DAY);
    SumPush(log, c, hour);
    SumPush(log, c, day);
    KeptExact(CODE, Sum(log + [c], hour));
    KeptExact(CODE, Sum(log + [c], day));
    HourInDay(c.time / HOUR, c.time / DAY, c.time);
    SumMonotone(log + [c], hour, day);
    hide Sum, Effective, Kept, HoursWithin;
  }

  lemma {:induction false} HourInDay(hour: nat, day: nat, time: nat)
    requires time / HOUR == hour && time / DAY == day
    ensures forall c: Call :: In(HOUR, hour)(c) ==> In(DAY, day)(c)
  {
    forall c: Call | c.time / HOUR == hour ensures c.time / DAY == day {
      assert c.time / 86400 == c.time / 3600 / 24 && time / 86400 == time / 3600 / 24;
    }
  }

  /** A positive call of hour `k` that no window limits. */
  ghost predicate TotalOnly(b: Budget, cap: nat, c: Call, k: nat) {
    c.amount > 0 && c.time / HOUR == k && !Windowed(Effective(b, c.domain), cap)
  }

  /** Without such calls the hour is within the cap. */
  lemma {:induction false} WindowedHour(b: Budget, most: nat, cap: nat, log: seq<Call>, k: nat)
    requires Limited(b, most, cap) && Lawful(b, log) && AtMost(log, most) && HoursWithin(log, HourCap(most, cap))
    requires forall c :: c in log ==> !TotalOnly(b, cap, c, k)
    ensures Sum(log, In(HOUR, k)) <= cap
  {
    if |log| > 0 {
      var before, c := log[..|log| - 1], log[|log| - 1];
      HoursPrefix(log, HourCap(most, cap), |log| - 1);
      hide HoursWithin, Limited, Respects, FreshReading, Windowed, Effective;
      assert log == before + [c];
      WindowedHour(b, most, cap, before, k);
      if c.amount > 0 && c.time / HOUR == k {
        WindowedPush(b, most, cap, before, c);
      }
    }
  }

  /** What is accepted between two total-limited calls that are at most 97 hours' worth apart is
      within the cap: the total cannot have wrapped in between. */
  lemma {:induction false} NoWrapBetween(spent: nat, more: nat, most: nat, cap: nat)
    requires Kept(CODE, spent) <= cap && Kept(CODE, spent + more) <= cap && more + cap < U64
    ensures more <= cap
  {
    assert spent == U64 * (spent / U64) + spent % U64;
    assert (spent + more) / U64 == spent / U64;
  }

  /** While an hour is live, readings are within 48 hours of it. */
  lemma {:induction false} LiveWithin(b: Budget, log: seq<Call>, c: Call, f: nat, cap: nat)
    requires Lawful(b, log) && FreshReading(log, c.time) && f < |log| && log[f].time / HOUR == c.time / HOUR
    requires HoursWithin(log, cap)
    ensures Sum(log[f + 1..], Any()) <= 97 * cap
  {
    var k := c.time / HOUR;
    var lo := SatSub(k, 48);
    var live, rest := Between(lo * HOUR, (lo + 97) * HOUR), log[f + 1..];
    forall x | x in rest ensures live(x) {
      var j :| 0 <= j < |rest| && rest[j] == x;
      LiveCall(b, log, c, f, f + 1 + j);
    }
    SumSame(rest, Any(), live);
    SumSplit(log, f + 1, live);
    SpanWithin(log, cap, lo, 97);
    hide Sum, HoursWithin, Lawful;
  }

  lemma {:induction false} LiveCall(b: Budget, log: seq<Call>, c: Call, f: nat, j: nat)
    requires Lawful(b, log) && FreshReading(log, c.time) && f < j < |log| && log[f].time / HOUR == c.time / HOUR
    ensures var lo := SatSub(c.time / HOUR, 48); lo * HOUR <= log[j].time < (lo + 97) * HOUR
  {
    LawfulPrefix(b, log, j);
    LatestAtLeast(log[..j], f);
    assert log[..j][f] == log[f];
    LatestAtLeast(log, j);
    QuotientMonotone(log[f].time, Latest(log[..j]), HOUR);
    QuotientMonotone(log[j].time, Latest(log), HOUR);
    BucketBounds(HOUR, log[j].time / HOUR, log[j].time);
    hide Lawful, Latest, Respects;
  }

  /** A total-limited call keeps its hour within the hour's cap. */
  lemma {:induction false} TotalPush(b: Budget, most: nat, cap: nat, log: seq<Call>, c: Call)
    requires Limited(b, most, cap) && HoursWithin(log, HourCap(most, cap)) && c.amount <= most
    requires Lawful(b, log) && AtMost(log, most) && FreshReading(log, c.time)
    requires Respects(CODE, b, log, c, Total) && TotalLimited(Effective(b, c.domain), cap)
    ensures Sum(log + [c], In(HOUR, c.time / HOUR)) <= HourCap(most, cap)
  {
    var k := c.time / HOUR;
    SumPush(log, c, In(HOUR, k));
    if forall x :: x in log ==> !TotalOnly(b, cap, x, k) {
      WindowedHour(b, most, cap, log, k);
    } else {
      var f := FirstTotalOnly(b, cap, log, k);
      TotalAgain(b, most, cap, log, c, f);
    }
    hide Sum, Limited, HoursWithin, Lawful, Respects;
  }

  lemma {:induction false} FirstTotalOnly(b: Budget, cap: nat, log: seq<Call>, k: nat) returns (f: nat)
    requires exists x :: x in log && TotalOnly(b, cap, x, k)
    ensures f < |log| && TotalOnly(b, cap, log[f], k) && forall x :: x in log[..f] ==> !TotalOnly(b, cap, x, k)
  {
    var before := log[..|log| - 1];
    if x :| x in before && TotalOnly(b, cap, x, k) {
      f := FirstTotalOnly(b, cap, before, k);
      assert log[..f] == before[..f];
    } else {
      f := |log| - 1;
    }
  }

  lemma {:induction false} TotalAgain(b: Budget, most: nat, cap: nat, log: seq<Call>, c: Call, f: nat)
    requires Limited(b, most, cap) && HoursWithin(log, HourCap(most, cap)) && c.amount <= most
    requires Lawful(b, log) && AtMost(log, most) && FreshReading(log, c.time)
    requires Respects(CODE, b, log, c, Total) && TotalLimited(Effective(b, c.domain), cap)
    requires f < |log| && TotalOnly(b, cap, log[f], c.time / HOUR)
    requires forall x :: x in log[..f] ==> !TotalOnly(b, cap, x, c.time / HOUR)
    ensures Sum(log + [c], In(HOUR, c.time / HOUR)) <= HourCap(most, cap)
  {
    var hour, head, rest := In(HOUR, c.time / HOUR), log[..f], log[f + 1..];
    LawfulPrefix(b, log, f);
    HoursPrefix(log, HourCap(most, cap), f);
    WindowedHour(b, most, cap, head, c.time / HOUR);
    FirstCapped(b, most, cap, head, log[f]);
    LiveWithin(b, log, c, f, HourCap(most, cap));
    assert log[..f + 1] == head + [log[f]];
    assert Kept(CODE, Sum(log + [c], Any())) <= cap && 98 * HourCap(most, cap) < U64;
    hide Lawful, HoursWithin, Sum, Effective, FreshReading, TotalOnly, Kept, Respects, TotalLimited, Limited;
    SumAround(log, c, f, Any());
    SumAround(log, c, f, hour);
    SumMonotone(rest, hour, Any());
    NoWrapBetween(Sum(log[..f + 1], Any()), Sum(rest, Any()) + c.amount, most, cap);
  }

  /** A log, around one of its calls, and one more. */
  lemma {:induction false} SumAround(log: seq<Call>, c: Call, f: nat, p: Call -> bool)
    requires f < |log| && p(log[f]) && p(c)
    ensures Sum(log[..f + 1], p) == Sum(log[..f], p) + log[f].amount
    ensures Sum(log + [c], p) == Sum(log[..f + 1], p) + Sum(log[f + 1..], p) + c.amount
  {
    assert log[..f + 1] == log[..f] + [log[f]];
    SumPush(log[..f], log[f], p);
    SumSplit(log, f + 1, p);
    SumPush(log, c, p);
    hide Sum;
  }

  /** A positive call that no window limits leaves the kept total within the cap. */
  lemma {:induction false} FirstCapped(b: Budget, most: nat, cap: nat, log: seq<Call>, c: Call)
    requires Limited(b, most, cap) && 0 < c.amount <= most && !Windowed(Effective(b, c.domain), cap)
    requires forall limit :: Respects(CODE, b, log, c, limit)
    ensures Kept(CODE, Sum(log + [c], Any())) <= cap
  {
    assert Respects(CODE, b, log, c, PerRequest) && Respects(CODE, b, log, c, Total);
    assert Largest(Effective(b, c.domain), most) > 0;
    hide Effective, Sum, Kept;
  }

  /** No hour of a lawful log holds more than twice the cap and one call. */
  lemma {:induction false} HoursHold(b: Budget, most: nat, cap: nat, log: seq<Call>)
    requires Limited(b, most, cap) && Lawful(b, log) && AtMost(log, most)
    ensures HoursWithin(log, HourCap(most, cap))
  {
    if |log| > 0 {
      var before, c := log[..|log| - 1], log[|log| - 1];
      HoursHold(b, most, cap, before);
      assert log == before + [c];
      hide Limited, FreshReading, Respects, Sum, HourCap;
      HourPush(b, most, cap, before, c);
      forall k: nat ensures Sum(log, In(HOUR, k)) <= HourCap(most, cap) {
        SumPush(before, c, In(HOUR, k));
        assert Sum(before, In(HOUR, k)) <= HourCap(most, cap);
      }
    }
  }

  lemma {:induction false} HourPush(b: Budget, most: nat, cap: nat, log: seq<Call>, c: Call)
    requires Limited(b, most, cap) && Lawful(b, log) && AtMost(log, most) && HoursWithin(log, HourCap(most, cap))
    requires c.amount <= most && FreshReading(log, c.time) && forall limit :: Respects(CODE, b, log, c, limit)
    ensures Sum(log + [c], In(HOUR, c.time / HOUR)) <= HourCap(most, cap)
  {
    var e := Effective(b, c.domain);
    if c.amount == 0 {
      SumPush(log, c, In(HOUR, c.time / HOUR));
      hide Sum, Lawful, FreshReading, Respects;
      assert Sum(log, In(HOUR, c.time / HOUR)) <= HourCap(most, cap);
    } else if Windowed(e, cap) {
      WindowedPush(b, most, cap, log, c);
    } else {
      assert Respects(CODE, b, log, c, PerRequest);
      assert Largest(e, most) > 0;
      hide Lawful, FreshReading, Respects, Effective, Sum, HoursWithin;
      TotalPush(b, most, cap, log, c);
    }
  }

  // ----- when the limits hold -----

  /** The hour and day limits of every domain hold over every run with fresh readings, when the
      lifetime total or the unit's own counters cannot wrap, or when every budget has some limit. */
  lemma {:induction false} WindowHolds(b: Budget, most: nat, cap: nat, calls: seq<Call>, domain: Option<string>,
                                       unit: nat, k: nat)
    requires unit == HOUR || unit == DAY
    requires Covered(b, most) || UnitCovered(b, unit, most) || Limited(b, most, cap)
    requires most < U64 && AtMost(calls, most) && FreshClock(CODE, b, calls)
    ensures var limit := LimitOf(Effective(b, domain), unit);
            limit.Some? ==> Sum(Exec(CODE, b, calls).log, Own(b, domain, unit, k)) <= limit.value
  {
    var log := Exec(CODE, b, calls).log;
    if Covered(b, most) {
      CoveredFits(b, most, calls);
      SumMonotone(log, In(unit, k), Any());
    } else if UnitCovered(b, unit, most) {
      UnitFits(b, most, calls, unit, k);
      assert Sum(log, In(unit, k)) + Largest(Effective(b, domain), most) < U64;
    } else {
      LimitedFits(b, most, cap, calls, unit, k);
    }
    hide Covered, UnitCovered, Limited, Sum, FreshClock;
    OwnSpendWithin(CODE, b, calls, domain, unit, k);
  }

  lemma {:induction false} LimitedFits(b: Budget, most: nat, cap: nat, calls: seq<Call>, unit: nat, k: nat)
    requires (unit == HOUR || unit == DAY) && Limited(b, most, cap)
    requires AtMost(calls, most) && FreshClock(CODE, b, calls)
    ensures var sum := Sum(Exec(CODE, b, calls).log, In(unit, k));
            sum < U64 && sum <= (if unit == HOUR then 1 else 24) * HourCap(most, cap)
  {
    var log := Exec(CODE, b, calls).log;
    RunLawful(b, calls);
    LogAtMost(b, most, calls);
    HoursHold(b, most, cap, log);
    hide Exec, Lawful, Sum, FreshClock;
    if unit == DAY {
      DayWithin(log, HourCap(most, cap), k);
    } else {
      assert Sum(log, In(HOUR, k)) <= HourCap(most, cap);
    }
  }

  // ----- exactly when -----

  /** Either every budget limits this unit or none of the three, and leaves room for one more call. */
  ghost predicate UnitOrFree(b: Budget, unit: nat, most: nat) {
    forall d: Option<string> ::
      match LimitOf(Effective(b, d), unit) case None => Free(Effective(b, d)) case Some(v) => v + most < U64
  }

  /** Every limit that is set, of whatever kind, is within `cap`. */
  ghost predicate Small(b: Budget, most: nat, cap: nat) {
    && 98 * HourCap(most, cap) < U64
    && forall d: Option<string> ::
         var e := Effective(b, d);
         && (e.hourlyMax.Some? ==> e.hourlyMax.value <= cap) && (e.dailyMax.Some? ==> e.dailyMax.value <= cap)
         && (e.totalMax.Some? ==> e.totalMax.value <= cap)
  }

  /** No budget that lets anything through is without all three limits. */
  ghost predicate NoneFree(b: Budget, most: nat) {
    forall d: Option<string> :: Largest(Effective(b, d), most) > 0 ==> !Free(Effective(b, d))
  }

  ghost predicate WindowWithin(b: Budget, calls: seq<Call>, domain: Option<string>, unit: nat, k: nat)
    requires unit > 0 && LimitOf(Effective(b, domain), unit).Some?
  {
    Sum(Exec(CODE, b, calls).log, Own(b, domain, unit, k)) <= LimitOf(Effective(b, domain), unit).value
  }

  /** Whatever mixture of limits the budgets have: the hourly or daily limit of a domain that spends
      holds over every run with fresh readings exactly when no budget is without all three. */
  lemma {:induction false} WindowExactly(b: Budget, most: nat, cap: nat, domain: Option<string>, unit: nat)
    requires (unit == HOUR || unit == DAY) && most < U64
    requires Small(b, most, cap) || UnitOrFree(b, unit, most)
    requires Spends(Effective(b, domain), most) && LimitOf(Effective(b, domain), unit).Some?
    ensures (forall calls, k: nat :: AtMost(calls, most) && Timely(calls) && FreshClock(CODE, b, calls) ==>
               WindowWithin(b, calls, domain, unit, k))
       <==> NoneFree(b, most)
  {
    if NoneFree(b, most) {
      LimitsSuffice(b, most, cap, unit);
      hide Small, UnitOrFree, Limited, UnitCovered, FreshClock, Effective;
      forall calls, k: nat | AtMost(calls, most) && FreshClock(CODE, b, calls)
        ensures WindowWithin(b, calls, domain, unit, k)
      {
        WindowHolds(b, most, cap, calls, domain, unit, k);
      }
    } else {
      var d: Option<string> :| Largest(Effective(b, d), most) > 0 && Free(Effective(b, d));
      hide Small, UnitOrFree, FreshClock, Effective;
      var calls := WindowOverspent(b, most, domain, d, unit);
      assert !WindowWithin(b, calls, domain, unit, 0);
    }
  }

  lemma {:induction false} LimitsSuffice(b: Budget, most: nat, cap: nat, unit: nat)
    requires NoneFree(b, most) && (Small(b, most, cap) || UnitOrFree(b, unit, most))
    ensures Limited(b, most, cap) || UnitCovered(b, unit, most)
  {
    if Small(b, most, cap) {
      forall d: Option<string> | Largest(Effective(b, d), most) > 0
        ensures Windowed(Effective(b, d), cap) || TotalLimited(Effective(b, d), cap)
      {
        assert !Free(Effective(b, d));
      }
    }
    hide Effective;
  }
}
