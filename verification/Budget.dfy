/** Spending limits per request, hour, day and lifetime. Hours and days are aligned buckets
    (`now / 3600`, `now / 86400`), not rolling windows. */
module Budget {
  import opened Wrappers

  const HOUR := 3600
  const DAY := 86400
  const HOURS_KEPT := 48
  const DAYS_KEPT := 2

  datatype Budget = Budget(
    perRequestMax: Option<nat>, hourlyMax: Option<nat>, dailyMax: Option<nat>, totalMax: Option<nat>,
    domainBudgets: map<string, Budget>)

  /** Which limit a payment would exceed. */
  datatype Limit = PerRequest | Hourly | Daily | Total

  datatype Verdict = Accepted | Exceeded(limit: Limit)

  /** One call of `check_and_record`, with the clock reading it makes. */
  datatype Call = Call(time: nat, amount: nat, domain: Option<string>)

  datatype Tracker = Tracker(total: nat, hourly: map<nat, nat>, daily: map<nat, nat>)

  const FRESH := Tracker(0, map[], map[])

  /** The code wraps at 64 bits and prunes; idealisations drop one or both. */
  datatype Mode = Mode(wraps: bool, prunes: bool)

  const CODE := Mode(true, true)
  const EXACT := Mode(false, true)

  function Plus(mode: Mode, a: nat, b: nat): nat {
    if mode.wraps then Add64(a, b) else a + b
  }

  function Unlimited(): Budget {
    Budget(None, None, None, None, map[])
  }

  /** The domain whose override governs a payment, if any. */
  function Governing(b: Budget, domain: Option<string>): Option<string> {
    if domain.Some? && domain.value in b.domainBudgets then domain else None
  }

  /** An override replaces every limit; its own overrides are never consulted. */
  function Effective(b: Budget, domain: Option<string>): Budget {
    match Governing(b, domain)
    case Some(d) => b.domainBudgets[d]
    case None => b
  }

  /** `Budget::check`. */
  predicate Check(b: Budget, amount: nat) {
    b.perRequestMax.Some? ==> amount <= b.perRequestMax.value
  }

  function Bucket(m: map<nat, nat>, k: nat): nat {
    if k in m then m[k] else 0
  }

  predicate Exceeds(mode: Mode, limit: Option<nat>, spent: nat, amount: nat) {
    limit.Some? && Plus(mode, spent, amount) > limit.value
  }

  function Judge(mode: Mode, b: Budget, t: Tracker, c: Call): Verdict {
    var e := Effective(b, c.domain);
    if !Check(e, c.amount) then Exceeded(PerRequest)
    else if Exceeds(mode, e.hourlyMax, Bucket(t.hourly, c.time / HOUR), c.amount) then Exceeded(Hourly)
    else if Exceeds(mode, e.dailyMax, Bucket(t.daily, c.time / DAY), c.amount) then Exceeded(Daily)
    else if Exceeds(mode, e.totalMax, t.total, c.amount) then Exceeded(Total)
    else Accepted
  }

  /** The four limits of a budget leave room for a call. */
  predicate Room(mode: Mode, e: Budget, t: Tracker, c: Call) {
    && (e.perRequestMax.Some? ==> c.amount <= e.perRequestMax.value)
    && (e.hourlyMax.Some? ==> Plus(mode, Bucket(t.hourly, c.time / 3600), c.amount) <= e.hourlyMax.value)
    && (e.dailyMax.Some? ==> Plus(mode, Bucket(t.daily, c.time / 86400), c.amount) <= e.dailyMax.value)
    && (e.totalMax.Some? ==> Plus(mode, t.total, c.amount) <= e.totalMax.value)
  }

  /** A call of an overridden domain is accepted exactly when the override's own limits leave room;
      any other call when the base limits do. */
  lemma {:induction false} JudgedByOwn(mode: Mode, b: Budget, t: Tracker, c: Call)
    ensures c.domain.Some? && c.domain.value in b.domainBudgets ==>
      (Judge(mode, b, t, c).Accepted? <==> Room(mode, b.domainBudgets[c.domain.value], t, c))
    ensures !(c.domain.Some? && c.domain.value in b.domainBudgets) ==>
      (Judge(mode, b, t, c).Accepted? <==> Room(mode, b, t, c))
  {
    hide Plus;
  }

  /** A refusal names the first limit, in the order per request, hour, day, lifetime, that has no room. */
  lemma {:induction false} RefusedInOrder(mode: Mode, b: Budget, t: Tracker, c: Call)
    ensures var e := if c.domain.Some? && c.domain.value in b.domainBudgets then b.domainBudgets[c.domain.value] else b;
            var each := e.perRequestMax.Some? && c.amount > e.perRequestMax.value;
            var hour := e.hourlyMax.Some? && Plus(mode, Bucket(t.hourly, c.time / 3600), c.amount) > e.hourlyMax.value;
            var day := e.dailyMax.Some? && Plus(mode, Bucket(t.daily, c.time / 86400), c.amount) > e.dailyMax.value;
            var life := e.totalMax.Some? && Plus(mode, t.total, c.amount) > e.totalMax.value;
            && (Judge(mode, b, t, c) == Exceeded(PerRequest) <==> each)
            && (Judge(mode, b, t, c) == Exceeded(Hourly) <==> !each && hour)
            && (Judge(mode, b, t, c) == Exceeded(Daily) <==> !each && !hour && day)
            && (Judge(mode, b, t, c) == Exceeded(Total) <==> !each && !hour && !day && life)
  {
    hide Plus;
  }

  /** `entry(k).or_insert(0) += amount`. */
  function Add(mode: Mode, m: map<nat, nat>, k: nat, amount: nat): map<nat, nat> {
    m[k := Plus(mode, Bucket(m, k), amount)]
  }

  /** `retain`. */
  function Retain(m: map<nat, nat>, cutoff: nat): map<nat, nat> {
    map k | k in m && k >= cutoff :: m[k]
  }

  function Bump(mode: Mode, m: map<nat, nat>, k: nat, amount: nat, keep: nat): map<nat, nat> {
    var added := Add(mode, m, k, amount);
    if mode.prunes then Retain(added, SatSub(k, keep)) else added
  }

  function Record(mode: Mode, t: Tracker, c: Call): Tracker {
    Tracker(Plus(mode, t.total, c.amount),
            Bump(mode, t.hourly, c.time / HOUR, c.amount, HOURS_KEPT),
            Bump(mode, t.daily, c.time / DAY, c.amount, DAYS_KEPT))
  }

  /** A tracker together with the ghost log of the calls it accepted. */
  datatype Ledger = Ledger(tracker: Tracker, log: seq<Call>)

  function Next(mode: Mode, b: Budget, r: Ledger, c: Call): Ledger {
    if Judge(mode, b, r.tracker, c).Accepted? then Ledger(Record(mode, r.tracker, c), r.log + [c]) else r
  }

  function Exec(mode: Mode, b: Budget, calls: seq<Call>): Ledger {
    if |calls| == 0 then Ledger(FRESH, [])
    else Next(mode, b, Exec(mode, b, calls[..|calls| - 1]), calls[|calls| - 1])
  }

  /** The tracker of the source: the fields behind its lock are updated in place. */
  class BudgetTracker {
    const budget: Budget
    var total: nat
    var hourly: map<nat, nat>
    var daily: map<nat, nat>

    ghost function State(): Tracker
      reads this
    {
      Tracker(total, hourly, daily)
    }

    constructor (budget: Budget)
      ensures this.budget == budget && State() == FRESH
    {
      this.budget := budget;
      total, hourly, daily := 0, map[], map[];
    }

    method CheckAndRecord(amount: nat, domain: Option<string>, now: nat) returns (verdict: Verdict)
      modifies this
      ensures verdict == Judge(CODE, budget, old(State()), Call(now, amount, domain))
      ensures State() == if verdict.Accepted? then Record(CODE, old(State()), Call(now, amount, domain))
                         else old(State())
      ensures domain.Some? && domain.value in budget.domainBudgets ==>
        (verdict.Accepted? <==> Room(CODE, budget.domainBudgets[domain.value], old(State()), Call(now, amount, domain)))
      ensures !(domain.Some? && domain.value in budget.domainBudgets) ==>
        (verdict.Accepted? <==> Room(CODE, budget, old(State()), Call(now, amount, domain)))
    {
      hide Wrap64, Retain, Add;
      ghost var call, was := Call(now, amount, domain), State();
      JudgedByOwn(CODE, budget, was, call);
      hide Room;
      var effective := budget;
      if domain.Some? && domain.value in budget.domainBudgets {
        effective := budget.domainBudgets[domain.value];
      }
      assert effective == Effective(budget, domain);
      if !Check(effective, amount) {
        return Exceeded(PerRequest);
      }
      var currentHour, currentDay := now / HOUR, now / DAY;
      if effective.hourlyMax.Some? {
        if Add64(Bucket(hourly, currentHour), amount) > effective.hourlyMax.value {
          return Exceeded(Hourly);
        }
      }
      if effective.dailyMax.Some? {
        if Add64(Bucket(daily, currentDay), amount) > effective.dailyMax.value {
          return Exceeded(Daily);
        }
      }
      if effective.totalMax.Some? {
        if Add64(total, amount) > effective.totalMax.value {
          return Exceeded(Total);
        }
      }
      assert Judge(CODE, budget, was, call) == Accepted;
      total := Add64(total, amount);
      hourly := Add(CODE, hourly, currentHour, amount);
      daily := Add(CODE, daily, currentDay, amount);
      hourly := Retain(hourly, SatSub(currentHour, HOURS_KEPT));
      daily := Retain(daily, SatSub(currentDay, DAYS_KEPT));
      return Accepted;
    }

    method TotalSpent() returns (spent: nat)
      ensures spent == State().total
    {
      spent := total;
    }
  }
}
