/** Which budgets keep the 64-bit tracker honest: conditions on the configuration alone, and the
    runs that go wrong without them. `most` bounds the amount of a single call. */
module BudgetConfig {
  import opened Wrappers
  import opened Budget
  import opened BudgetLaws

  function Cut(n: nat, limit: Option<nat>): nat {
    match limit case None => n case Some(max) => Min(n, max)
  }

  /** The largest amount that passes the per-request limit. */
  function Largest(e: Budget, most: nat): nat {
    Cut(most, e.perRequestMax)
  }

  /** The largest amount that a fresh hour and a fresh day admit as well. */
  function First(e: Budget, most: nat): nat {
    Cut(Cut(Largest(e, most), e.hourlyMax), e.dailyMax)
  }

  /** Some positive amount is accepted by a fresh tracker. */
  predicate Spends(e: Budget, most: nat) {
    First(e, most) > 0 && e.totalMax != Some(0)
  }

  /** The highest lifetime total reached under a budget without wrapping. */
  function Ceiling(e: Budget): nat {
    Cut(U64 - 1, e.totalMax)
  }

  /** Any budget that spends stops early enough that no single call can wrap the total. */
  ghost predicate Covered(b: Budget, most: nat) {
    forall d: Option<string>, d': Option<string> ::
      Spends(Effective(b, d), most) ==> Ceiling(Effective(b, d)) + Largest(Effective(b, d'), most) < U64
  }

  /** The same of the calls a fresh hour admits. */
  ghost predicate FirstCovered(b: Budget, most: nat) {
    forall d: Option<string>, d': Option<string> ::
      Spends(Effective(b, d), most) ==> Ceiling(Effective(b, d)) + First(Effective(b, d'), most) < U64
  }

  /** No lifetime limit is within one call of 2^64. */
  ghost predicate Modest(b: Budget, most: nat) {
    most < U64
    && forall d: Option<string> ::
         Effective(b, d).totalMax.Some? ==> Effective(b, d).totalMax.value + most < U64
  }

  /** Every effective budget that spends has a lifetime limit. */
  ghost predicate AllLimited(b: Budget, most: nat) {
    forall d: Option<string> :: Spends(Effective(b, d), most) ==> Effective(b, d).totalMax.Some?
  }

  /** No hourly or daily limit stops a first call that the per-request limit admits. */
  ghost predicate Plain(b: Budget, most: nat) {
    forall d: Option<string> :: First(Effective(b, d), most) == Largest(Effective(b, d), most)
  }

  lemma {:induction false} CoversAgree(b: Budget, most: nat)
    requires most < U64 && (Modest(b, most) || Plain(b, most))
    ensures Covered(b, most) <==> FirstCovered(b, most)
    ensures Modest(b, most) ==> (Covered(b, most) <==> AllLimited(b, most))
  {
    hide Effective, First, Largest, Ceiling;
    if Modest(b, most) {
      ModestCovered(b, most);
      hide Covered, FirstCovered;
    }
  }

  lemma {:induction false} ModestCovered(b: Budget, most: nat)
    requires Modest(b, most)
    ensures Covered(b, most) <==> AllLimited(b, most)
    ensures FirstCovered(b, most) <==> AllLimited(b, most)
  {
    if !AllLimited(b, most) {
      var d: Option<string> :| Spends(Effective(b, d), most) && Effective(b, d).totalMax.None?;
      assert Ceiling(Effective(b, d)) + First(Effective(b, d), most) >= U64;
    }
    hide Effective;
  }

  // ----- enough -----

  /** The total leaves room for any further call. */
  ghost predicate RoomLeft(b: Budget, most: nat, total: nat) {
    forall d: Option<string> :: total + Largest(Effective(b, d), most) < U64
  }

  lemma {:induction false} AcceptKeepsRoom(b: Budget, most: nat, t: Tracker, c: Call)
    requires Covered(b, most) && BelowTotal(t) && RoomLeft(b, most, t.total)
    requires c.amount <= most && Judge(CODE, b, t, c).Accepted?
    ensures t.total + c.amount < U64 && RoomLeft(b, most, t.total + c.amount)
  {
    var e := Effective(b, c.domain);
    assert c.amount <= Largest(e, most);
    var hour, day := Bucket(t.hourly, c.time / HOUR), Bucket(t.daily, c.time / DAY);
    assert hour <= t.total && day <= t.total;
    AddExact(t.total, c.amount);
    AddExact(hour, c.amount);
    AddExact(day, c.amount);
    hide Add64, Effective, BelowTotal, Largest;
    if c.amount > 0 {
      assert Spends(e, most) && t.total + c.amount <= Ceiling(e);
    }
  }

  /** In every run of calls of at most `most`, what is accepted fits in 64 bits. */
  lemma {:induction false} CoveredFits(b: Budget, most: nat, calls: seq<Call>)
    requires Covered(b, most) && most < U64 && AtMost(calls, most)
    ensures var log := Exec(CODE, b, calls).log;
            Sum(log, Any()) < U64 && RoomLeft(b, most, Sum(log, Any()))
  {
    if |calls| > 0 {
      var before, c := calls[..|calls| - 1], calls[|calls| - 1];
      CoveredFits(b, most, before);
      var r := Exec(CODE, b, before);
      RunFaithful(CODE, b, before);
      KeptExact(CODE, Sum(r.log, Any()));
      FaithfulBelow(CODE, r);
      SumPush(r.log, c, Any());
      if Judge(CODE, b, r.tracker, c).Accepted? {
        AcceptKeepsRoom(b, most, r.tracker, c);
      }
      hide Judge, Record, Faithful, BelowTotal, Covered, RoomLeft, Sum;
    }
  }

  // ----- and needed -----

  /** The clock is read as a 64-bit number of seconds. */
  ghost predicate Timely(calls: seq<Call>) {
    forall c :: c in calls ==> c.time < U64
  }

  /** Every hour and day from `day` on is still empty. */
  ghost predicate Before(t: Tracker, day: nat) {
    (forall k :: k in t.hourly ==> k < 24 * day) && (forall k :: k in t.daily ==> k < day)
  }

  lemma {:induction false} ExecPush(b: Budget, calls: seq<Call>, c: Call)
    ensures Exec(CODE, b, calls + [c]) == Next(CODE, b, Exec(CODE, b, calls), c)
  {
    assert (calls + [c])[..|calls|] == calls;
    hide Next;
  }

  /** After `calls`, all of `more` is accepted. */
  ghost predicate AllAccepted(b: Budget, calls: seq<Call>, more: seq<Call>) {
    Exec(CODE, b, calls + more).log == Exec(CODE, b, calls).log + more
  }

  lemma {:induction false} AcceptedNone(b: Budget, calls: seq<Call>)
    ensures calls + [] == calls && AllAccepted(b, calls, [])
  {
    assert calls + [] == calls;
    hide Exec;
  }

  lemma {:induction false} AcceptedConcat(b: Budget, calls: seq<Call>, more: seq<Call>, rest: seq<Call>)
    requires AllAccepted(b, calls, more) && AllAccepted(b, calls + more, rest)
    ensures calls + (more + rest) == calls + more + rest && AllAccepted(b, calls, more + rest)
  {
    hide Exec;
    var log := Exec(CODE, b, calls).log;
    assert calls + (more + rest) == calls + more + rest && log + (more + rest) == log + more + rest;
  }

  /** Nothing is recorded on this day or in its first hour. */
  ghost predicate Empty(t: Tracker, day: nat) {
    24 * day !in t.hourly && day !in t.daily
  }

  lemma {:induction false} FirstAccepted(b: Budget, most: nat, t: Tracker, day: nat, amount: nat,
                                         domain: Option<string>)
    requires Empty(t, day) && amount < U64 && amount <= First(Effective(b, domain), most)
    requires !Exceeds(CODE, Effective(b, domain).totalMax, t.total, amount)
    ensures Judge(CODE, b, t, Call(day * DAY, amount, domain)).Accepted?
  {
    assert day * DAY / HOUR == 24 * day && day * DAY / DAY == day;
    assert Bucket(t.hourly, 24 * day) == 0 && Bucket(t.daily, day) == 0;
    assert Add64(0, amount) == amount;
    hide Effective, Add64;
  }

  /** A record on `day` forgets everything two days or more before it. */
  ghost predicate Forgets(t: Tracker, t': Tracker, day: nat) {
    && (forall k :: k in t'.hourly ==> k + 48 >= 24 * day && (k == 24 * day || k in t.hourly))
    && (forall k :: k in t'.daily ==> k + 2 >= day && (k == day || k in t.daily))
  }

  lemma {:induction false} RecordForgets(t: Tracker, day: nat, amount: nat, domain: Option<string>)
    ensures Forgets(t, Record(CODE, t, Call(day * DAY, amount, domain)), day)
  {
    assert day * DAY / HOUR == 24 * day && day * DAY / DAY == day;
    hide Add64;
  }

  /** A call on an empty day that the per-request, hourly and daily limits admit. */
  lemma {:induction false} FirstOfDay(b: Budget, most: nat, calls: seq<Call>, day: nat, amount: nat,
                                      domain: Option<string>)
    requires Empty(Exec(CODE, b, calls).tracker, day) && amount < U64 && amount <= First(Effective(b, domain), most)
    requires !Exceeds(CODE, Effective(b, domain).totalMax, Exec(CODE, b, calls).tracker.total, amount)
    ensures var r, c := Exec(CODE, b, calls), Call(day * DAY, amount, domain);
            var r' := Exec(CODE, b, calls + [c]);
            && r'.tracker.total == Add64(r.tracker.total, amount)
            && AllAccepted(b, calls, [c]) && Forgets(r.tracker, r'.tracker, day)
  {
    var t, c := Exec(CODE, b, calls).tracker, Call(day * DAY, amount, domain);
    FirstAccepted(b, most, t, day, amount, domain);
    RecordForgets(t, day, amount, domain);
    ExecPush(b, calls, c);
    hide Exec, Effective, Add64, Forgets, Judge, Bump, Exceeds;
  }

  // ----- counting on forgotten days -----

  function Pow2(n: nat): nat {
    if n == 0 then 1 else 2 * Pow2(n - 1)
  }

  /** Level `j` is every third day: a record on it forgets all lower levels. */
  function LevelDay(base: nat, j: nat): nat {
    base + 3 * j
  }

  /** The first `n` levels are empty. */
  ghost predicate Clear(t: Tracker, base: nat, n: nat) {
    forall j: nat :: j < n ==> Empty(t, LevelDay(base, j))
  }

  /** Only days before level `n` were added. */
  ghost predicate AddedBelow(t: Tracker, t': Tracker, base: nat, n: nat) {
    && (forall k :: k in t'.hourly ==> k in t.hourly || k < 24 * LevelDay(base, n))
    && (forall k :: k in t'.daily ==> k in t.daily || k < LevelDay(base, n))
  }

  /** What a count of `k` satoshis on `n` levels does. */
  ghost predicate Counted(b: Budget, calls: seq<Call>, more: seq<Call>, base: nat, n: nat, k: nat,
                          domain: Option<string>)
  {
    var r, r' := Exec(CODE, b, calls), Exec(CODE, b, calls + more);
    && r'.tracker.total == r.tracker.total + k && AllAccepted(b, calls, more) && |more| == k
    && AddedBelow(r.tracker, r'.tracker, base, n)
    && forall c :: c in more ==> c.amount == 1 && c.domain == domain && c.time < LevelDay(base, n) * DAY
  }

  /** One satoshi on the top level, after which the lower levels are clear. */
  lemma {:induction false} Visit(b: Budget, most: nat, calls: seq<Call>, base: nat, n: nat, domain: Option<string>)
    requires Spends(Effective(b, domain), most) && Empty(Exec(CODE, b, calls).tracker, LevelDay(base, n))
    requires Exec(CODE, b, calls).tracker.total < Ceiling(Effective(b, domain))
    ensures var c := Call(LevelDay(base, n) * DAY, 1, domain);
            && Counted(b, calls, [c], base, n + 1, 1, domain)
            && Clear(Exec(CODE, b, calls + [c]).tracker, base, n)
  {
    hide Exec, Effective, AllAccepted;
    var t, c := Exec(CODE, b, calls).tracker, Call(LevelDay(base, n) * DAY, 1, domain);
    AddOne(t.total);
    hide Add64;
    FirstOfDay(b, most, calls, LevelDay(base, n), 1, domain);
    hide Spends, Ceiling, First, Forgets, Clear, AddedBelow;
    ForgetsBelow(t, Exec(CODE, b, calls + [c]).tracker, base, n);
  }

  lemma {:induction false} ForgetsBelow(t: Tracker, t': Tracker, base: nat, n: nat)
    requires Forgets(t, t', LevelDay(base, n))
    ensures AddedBelow(t, t', base, n + 1) && Clear(t', base, n)
  {
  }

  lemma {:induction false} CountedConcat(b: Budget, calls: seq<Call>, more: seq<Call>, rest: seq<Call>, base: nat,
                                         n: nat, k: nat, m: nat, domain: Option<string>)
    requires Counted(b, calls, more, base, n, k, domain) && Counted(b, calls + more, rest, base, n, m, domain)
    ensures Counted(b, calls, more + rest, base, n, k + m, domain)
  {
    AcceptedConcat(b, calls, more, rest);
    hide Exec, AllAccepted;
  }

  lemma {:induction false} CountedHigher(b: Budget, calls: seq<Call>, more: seq<Call>, base: nat, n: nat, k: nat,
                                         domain: Option<string>)
    requires Counted(b, calls, more, base, n, k, domain)
    ensures Counted(b, calls, more, base, n + 1, k, domain)
  {
    hide Exec, AllAccepted;
  }

  /** Any number below 2^n is counted, one satoshi at a time, on `n` levels: count on the lower ones,
      visit the top one, which forgets them, and count on them again. */
  lemma {:induction false} Count(b: Budget, most: nat, calls: seq<Call>, base: nat, n: nat, k: nat,
                                 domain: Option<string>)
    returns (more: seq<Call>)
    requires Spends(Effective(b, domain), most) && Clear(Exec(CODE, b, calls).tracker, base, n) && k < Pow2(n)
    requires Exec(CODE, b, calls).tracker.total + k <= Ceiling(Effective(b, domain))
    ensures Counted(b, calls, more, base, n, k, domain)
    decreases n
  {
    hide Exec, Effective, Counted, Ceiling, Spends, Clear;
    if k == 0 {
      more := [];
      CountNone(b, calls, base, n, domain);
    } else {
      var half := Pow2(n - 1);
      assert Pow2(n) == 2 * half && half > 0;
      hide Pow2;
      ClearLess(Exec(CODE, b, calls).tracker, base, n);
      if k < half {
        more := Count(b, most, calls, base, n - 1, k, domain);
        CountedHigher(b, calls, more, base, n - 1, k, domain);
      } else {
        var first := Count(b, most, calls, base, n - 1, half - 1, domain);
        more := CountTop(b, most, calls, first, base, n, half, domain);
        var last := Count(b, most, calls + more, base, n - 1, k - half, domain);
        CountedHigher(b, calls + more, last, base, n - 1, k - half, domain);
        CountedConcat(b, calls, more, last, base, n, half, k - half, domain);
        more := more + last;
      }
    }
  }

  lemma {:induction false} CountNone(b: Budget, calls: seq<Call>, base: nat, n: nat, domain: Option<string>)
    ensures Counted(b, calls, [], base, n, 0, domain)
  {
    AcceptedNone(b, calls);
    hide Exec, AllAccepted;
  }

  lemma {:induction false} ClearLess(t: Tracker, base: nat, n: nat)
    requires n > 0 && Clear(t, base, n)
    ensures Clear(t, base, n - 1)
  {
  }

  /** The visit in the middle of a count. */
  lemma {:induction false} CountTop(b: Budget, most: nat, calls: seq<Call>, first: seq<Call>, base: nat, n: nat,
                                    half: nat, domain: Option<string>)
    returns (more: seq<Call>)
    requires n > 0 && half > 0 && Spends(Effective(b, domain), most) && Clear(Exec(CODE, b, calls).tracker, base, n)
    requires Counted(b, calls, first, base, n - 1, half - 1, domain)
    requires Exec(CODE, b, calls).tracker.total + half <= Ceiling(Effective(b, domain))
    ensures Counted(b, calls, more, base, n, half, domain)
    ensures Clear(Exec(CODE, b, calls + more).tracker, base, n - 1)
    ensures Exec(CODE, b, calls + more).tracker.total == Exec(CODE, b, calls).tracker.total + half
  {
    hide Exec, Effective, Ceiling, Spends, AllAccepted;
    var visit := [Call(LevelDay(base, n - 1) * DAY, 1, domain)];
    CountedBelow(b, calls, first, base, n - 1, half - 1, domain);
    hide Clear, Counted;
    Visit(b, most, calls + first, base, n - 1, domain);
    CountedHigher(b, calls, first, base, n - 1, half - 1, domain);
    CountedConcat(b, calls, first, visit, base, n, half - 1, 1, domain);
    assert calls + (first + visit) == calls + first + visit;
    more := first + visit;
    CountedBelow(b, calls, more, base, n, half, domain);
  }

  lemma {:induction false} CountedBelow(b: Budget, calls: seq<Call>, more: seq<Call>, base: nat, n: nat, k: nat,
                                        domain: Option<string>)
    requires Counted(b, calls, more, base, n, k, domain)
    ensures Exec(CODE, b, calls + more).tracker.total == Exec(CODE, b, calls).tracker.total + k
    ensures Clear(Exec(CODE, b, calls).tracker, base, n + 1) ==>
              Empty(Exec(CODE, b, calls + more).tracker, LevelDay(base, n))
  {
    hide Exec, AllAccepted;
    assert Clear(Exec(CODE, b, calls).tracker, base, n + 1) ==> Empty(Exec(CODE, b, calls).tracker, LevelDay(base, n));
  }

  /** Days it takes to count to any 64-bit number. */
  const CLIMB := 192

  lemma {:induction false} EightMore(n: nat)
    ensures Pow2(n + 8) == 256 * Pow2(n)
  {
    assert Pow2(n + 2) == 4 * Pow2(n);
    assert Pow2(n + 4) == 4 * Pow2(n + 2);
    assert Pow2(n + 6) == 4 * Pow2(n + 4);
    assert Pow2(n + 8) == 4 * Pow2(n + 6);
  }

  lemma {:induction false} Pow2Of64()
    ensures Pow2(64) == U64
  {
    assert Pow2(0) == 1;
    hide Pow2;
    EightMore(0);
    EightMore(8);
    EightMore(16);
    EightMore(24);
    EightMore(32);
    EightMore(40);
    EightMore(48);
    EightMore(56);
  }

  ghost predicate Until(calls: seq<Call>, day: nat) {
    forall c :: c in calls ==> c.time < day * DAY
  }

  /** One satoshi at a time, up to any total below the ceiling, within 192 days. */
  lemma {:induction false} Climb(b: Budget, most: nat, calls: seq<Call>, day: nat, domain: Option<string>, target: nat)
    returns (more: seq<Call>)
    requires Spends(Effective(b, domain), most) && Before(Exec(CODE, b, calls).tracker, day)
    requires Exec(CODE, b, calls).tracker.total <= target <= Ceiling(Effective(b, domain))
    ensures var r' := Exec(CODE, b, calls + more);
            && r'.tracker.total == target && AllAccepted(b, calls, more) && Before(r'.tracker, day + CLIMB)
            && |more| == target - Exec(CODE, b, calls).tracker.total
    ensures Until(more, day + CLIMB) && forall c :: c in more ==> c.amount == 1 && c.domain == domain
  {
    Pow2Of64();
    hide Exec, Effective, AllAccepted, Pow2;
    more := Count(b, most, calls, day, 64, target - Exec(CODE, b, calls).tracker.total, domain);
  }

  lemma {:induction false} AddOne(n: nat)
    requires n < U64
    ensures Add64(n, 1) == if n + 1 == U64 then 0 else n + 1
  {
  }

  lemma {:induction false} SumConcat(log: seq<Call>, more: seq<Call>, p: Call -> bool)
    ensures Sum(log + more, p) == Sum(log, p) + Sum(more, p)
  {
    if |more| == 0 {
      assert log + more == log;
    } else {
      assert (log + more)[..|log + more| - 1] == log + more[..|more| - 1];
      SumConcat(log, more[..|more| - 1], p);
    }
  }

  lemma {:induction false} SumOnes(more: seq<Call>, p: Call -> bool)
    requires forall c :: c in more ==> c.amount == 1 && p(c)
    ensures Sum(more, p) == |more|
  {
    if |more| > 0 {
      SumOnes(more[..|more| - 1], p);
    }
  }

  /** When `d` can bring the total within one first call of `d'` from 2^64, the total can be brought
      back to 0. */
  lemma {:induction false} Wraparound(b: Budget, most: nat, calls: seq<Call>, day: nat, d: Option<string>,
                                      d': Option<string>)
    returns (more: seq<Call>)
    requires most < U64 && Spends(Effective(b, d), most)
    requires Ceiling(Effective(b, d)) + First(Effective(b, d'), most) >= U64
    requires Before(Exec(CODE, b, calls).tracker, day)
    requires Exec(CODE, b, calls).tracker.total <= Ceiling(Effective(b, d))
    ensures var r' := Exec(CODE, b, calls + more);
            r'.tracker.total == 0 && AllAccepted(b, calls, more) && Before(r'.tracker, day + CLIMB + 1)
    ensures AtMost(more, most) && |more| > 0 && more[|more| - 1].amount > 0 && Until(more, day + CLIMB + 1)
    ensures Effective(b, d).totalMax.None? ==> forall c :: c in more ==> c.amount == 1
  {
    hide Exec, Effective, AllAccepted, First;
    var ceiling, day1 := Ceiling(Effective(b, d)), day + CLIMB;
    var last := U64 - ceiling;
    assert Add64(ceiling, last) == 0;
    hide Add64;
    var climb := Climb(b, most, calls, day, d, ceiling);
    assert last <= First(Effective(b, d'), most) <= most by { FirstAtMost(Effective(b, d'), most); }
    FirstOfDay(b, most, calls + climb, day1, last, d');
    AcceptedConcat(b, calls, climb, [Call(day1 * DAY, last, d')]);
    more := climb + [Call(day1 * DAY, last, d')];
  }

  lemma {:induction false} FirstAtMost(e: Budget, most: nat)
    ensures First(e, most) <= most
  {
  }

  // ----- the lifetime total -----

  ghost predicate TotalTrue(b: Budget, calls: seq<Call>) {
    Exec(CODE, b, calls).tracker.total == Sum(Exec(CODE, b, calls).log, Any())
  }

  /** The total stands at 0 although something was accepted. */
  lemma {:induction false} TotalBroken(b: Budget, most: nat, d: Option<string>, d': Option<string>)
    returns (calls: seq<Call>)
    requires most < U64 && Spends(Effective(b, d), most)
    requires Ceiling(Effective(b, d)) + First(Effective(b, d'), most) >= U64
    ensures AtMost(calls, most) && Timely(calls) && !TotalTrue(b, calls)
    ensures Effective(b, d).totalMax.None? ==> forall c :: c in calls ==> c.amount == 1
  {
    assert Exec(CODE, b, []) == Ledger(FRESH, []) && Before(FRESH, 0);
    hide Exec, Effective, AllAccepted, Before, First;
    calls := Wraparound(b, most, [], 0, d, d');
    assert [] + calls == calls;
    FromNothing(b, calls);
    assert Sum(calls, Any()) >= calls[|calls| - 1].amount;
  }

  /** Under a covered budget `total_spent` is always the sum of what was accepted, and the tracker the
      ideal one; without the cover of first calls some run breaks it. */
  lemma {:induction false} TotalsTrue(b: Budget, most: nat)
    requires most < U64
    ensures Covered(b, most) ==>
      forall calls :: AtMost(calls, most) ==> TotalTrue(b, calls) && Exec(CODE, b, calls) == Exec(EXACT, b, calls)
    ensures (forall calls :: AtMost(calls, most) && Timely(calls) ==> TotalTrue(b, calls)) ==> FirstCovered(b, most)
  {
    if Covered(b, most) {
      forall calls | AtMost(calls, most)
        ensures TotalTrue(b, calls) && Exec(CODE, b, calls) == Exec(EXACT, b, calls)
      {
        CoveredFits(b, most, calls);
        RunFaithful(CODE, b, calls);
        KeptExact(CODE, Sum(Exec(CODE, b, calls).log, Any()));
        RecordsFitExactly(b, calls);
      }
    }
    if !FirstCovered(b, most) {
      var d: Option<string>, d': Option<string> :|
        Spends(Effective(b, d), most) && Ceiling(Effective(b, d)) + First(Effective(b, d'), most) >= U64;
      var calls := TotalBroken(b, most, d, d');
    }
  }

  /** `total_spent` is the sum of what was accepted, in every run, exactly under a covered budget;
      with modest limits, exactly when every effective budget that spends has a lifetime limit. */
  lemma {:induction false} TotalsTrueExactly(b: Budget, most: nat)
    requires most < U64 && (Modest(b, most) || Plain(b, most))
    ensures (forall calls :: AtMost(calls, most) && Timely(calls) ==> TotalTrue(b, calls)) <==> Covered(b, most)
    ensures Modest(b, most) ==> (Covered(b, most) <==> AllLimited(b, most))
  {
    CoversAgree(b, most);
    TotalsTrue(b, most);
    hide *;
  }

  // ----- a domain's own lifetime limit -----

  ghost predicate OwnWithin(b: Budget, domain: Option<string>, calls: seq<Call>)
    requires Effective(b, domain).totalMax.Some?
  {
    Sum(Exec(CODE, b, calls).log, Under(b, Governing(b, domain))) <= Effective(b, domain).totalMax.value
  }

  lemma {:induction false} LifetimeHolds(b: Budget, most: nat, domain: Option<string>, calls: seq<Call>)
    requires Covered(b, most) && most < U64 && AtMost(calls, most) && Effective(b, domain).totalMax.Some?
    ensures OwnWithin(b, domain, calls)
  {
    CoveredFits(b, most, calls);
    OwnLifetimeWithin(CODE, b, calls, domain);
  }

  /** From an empty tracker: `domain` spends 1, the total is wrapped to 0, and it spends its limit. */
  lemma {:induction false} SpendWrapSpend(b: Budget, most: nat, domain: Option<string>, d: Option<string>,
                                          d': Option<string>)
    returns (first: seq<Call>, middle: seq<Call>, last: seq<Call>)
    requires most < U64 && Spends(Effective(b, d), most)
    requires Ceiling(Effective(b, d)) + First(Effective(b, d'), most) >= U64
    requires Spends(Effective(b, domain), most)
    ensures AllAccepted(b, [], first + middle + last)
    ensures |first| + |last| == 1 + Ceiling(Effective(b, domain)) && AtMost(middle, most)
    ensures forall c :: c in first + last ==> c.amount == 1 && c.domain == domain
    ensures Until(first, CLIMB) && Until(middle, 2 * CLIMB + 1) && Until(last, 3 * CLIMB + 1)
    ensures Effective(b, d).totalMax.None? ==> forall c :: c in middle ==> c.amount == 1
  {
    assert Exec(CODE, b, []) == Ledger(FRESH, []) && Before(FRESH, 0);
    hide Exec, Effective, AllAccepted, Before, AtMost, First, Until, Spends;
    assert Ceiling(Effective(b, domain)) >= 1 && Ceiling(Effective(b, d)) >= 1 by { SpendsCeiling(b, most, domain, d); }
    hide Ceiling;
    first := Climb(b, most, [], 0, domain, 1);
    middle := Wraparound(b, most, [] + first, CLIMB, d, d');
    AcceptedConcat(b, [], first, middle);
    last := Climb(b, most, [] + (first + middle), 2 * CLIMB + 1, domain, Ceiling(Effective(b, domain)));
    AcceptedConcat(b, [], first + middle, last);
  }

  lemma {:induction false} SpendsCeiling(b: Budget, most: nat, domain: Option<string>, d: Option<string>)
    requires Spends(Effective(b, domain), most) && Spends(Effective(b, d), most)
    ensures Ceiling(Effective(b, domain)) >= 1 && Ceiling(Effective(b, d)) >= 1
  {
    hide Effective;
  }

  lemma {:induction false} UntilTimely(first: seq<Call>, middle: seq<Call>, last: seq<Call>)
    requires Until(first, CLIMB) && Until(middle, 2 * CLIMB + 1) && Until(last, 3 * CLIMB + 1)
    ensures Timely(first + middle + last)
  {
  }

  /** A domain with a lifetime limit overspends it once another wraps the shared total. */
  lemma {:induction false} LifetimeOverspent(b: Budget, most: nat, domain: Option<string>, d: Option<string>,
                                             d': Option<string>)
    returns (calls: seq<Call>)
    requires most < U64 && Spends(Effective(b, d), most)
    requires Ceiling(Effective(b, d)) + First(Effective(b, d'), most) >= U64
    requires var e := Effective(b, domain); Spends(e, most) && e.totalMax.Some? && e.totalMax.value < U64
    ensures AtMost(calls, most) && Timely(calls) && !OwnWithin(b, domain, calls)
    ensures Effective(b, d).totalMax.None? ==> forall c :: c in calls ==> c.amount == 1
  {
    hide Exec, Effective, AllAccepted, Governing, Sum, First;
    assert most > 0 by { FirstAtMost(Effective(b, d), most); }
    var first, middle, last := SpendWrapSpend(b, most, domain, d, d');
    calls := first + middle + last;
    UntilTimely(first, middle, last);
    hide Until, Timely;
    assert forall c :: c in first || c in last ==> c in first + last;
    OverspentSum(b, domain, first, middle, last);
    FromNothing(b, calls);
  }

  lemma {:induction false} FromNothing(b: Budget, calls: seq<Call>)
    requires AllAccepted(b, [], calls)
    ensures Exec(CODE, b, calls).log == calls
  {
    assert [] + calls == calls;
    assert Exec(CODE, b, []).log + calls == calls;
  }

  lemma {:induction false} OverspentSum(b: Budget, domain: Option<string>, first: seq<Call>, middle: seq<Call>,
                                        last: seq<Call>)
    requires forall c :: c in first ==> c.amount == 1 && c.domain == domain
    requires forall c :: c in last ==> c.amount == 1 && c.domain == domain
    ensures Sum(first + middle + last, Under(b, Governing(b, domain))) >= |first| + |last|
  {
    var own := Under(b, Governing(b, domain));
    SumOnes(first, own);
    SumOnes(last, own);
    SumConcat(first, middle, own);
    SumConcat(first + middle, last, own);
    hide Sum;
  }

  /** A domain that spends keeps its own lifetime limit, in every run, exactly under a covered budget;
      with modest limits, exactly when every effective budget that spends has a lifetime limit. */
  lemma {:induction false} LifetimeExactly(b: Budget, most: nat, domain: Option<string>)
    requires most < U64 && (Modest(b, most) || Plain(b, most))
    requires var e := Effective(b, domain); Spends(e, most) && e.totalMax.Some? && e.totalMax.value < U64
    ensures (forall calls :: AtMost(calls, most) && Timely(calls) ==> OwnWithin(b, domain, calls)) <==> Covered(b, most)
    ensures Modest(b, most) ==> (Covered(b, most) <==> AllLimited(b, most))
  {
    CoversAgree(b, most);
    if Covered(b, most) {
      forall calls | AtMost(calls, most) ensures OwnWithin(b, domain, calls) {
        LifetimeHolds(b, most, domain, calls);
      }
    } else {
      var d: Option<string>, d': Option<string> :|
        Spends(Effective(b, d), most) && Ceiling(Effective(b, d)) + First(Effective(b, d'), most) >= U64;
      var calls := LifetimeOverspent(b, most, domain, d, d');
    }
    hide OwnWithin, Covered, FirstCovered;
  }

  lemma {:induction false} SumSame(log: seq<Call>, p: Call -> bool, q: Call -> bool)
    requires forall c :: c in log ==> (p(c) <==> q(c))
    ensures Sum(log, p) == Sum(log, q)
  {
    if |log| > 0 {
      SumSame(log[..|log| - 1], p, q);
    }
  }
}
