/** Overrides: what is governed by a domain's own budget, and that nothing of the base budget or of
    the other overrides is. */
module BudgetOverrides {
  import opened Wrappers
  import opened Budget
  import opened BudgetLaws

  /** The calls so far that fall in the same hour, in the same day, or at all, leave the four limits
      of a budget room for this one. */
  ghost predicate Meets(mode: Mode, e: Budget, log: seq<Call>, c: Call) {
    && (e.perRequestMax.Some? ==> c.amount <= e.perRequestMax.value)
    && (e.hourlyMax.Some? ==> Kept(mode, Sum(log, In(3600, c.time / 3600)) + c.amount) <= e.hourlyMax.value)
    && (e.dailyMax.Some? ==> Kept(mode, Sum(log, In(86400, c.time / 86400)) + c.amount) <= e.dailyMax.value)
    && (e.totalMax.Some? ==> Kept(mode, Sum(log, Any()) + c.amount) <= e.totalMax.value)
  }

  predicate Overridden(b: Budget, c: Call) {
    c.domain.Some? && c.domain.value in b.domainBudgets
  }

  lemma {:induction false} RoomMeets(mode: Mode, e: Budget, r: Ledger, c: Call)
    requires Faithful(mode, r) && FreshReading(r.log, c.time)
    ensures Room(mode, e, r.tracker, c) <==> Meets(mode, e, r.log, c)
  {
    FreshBuckets(mode, r, c.time);
    PlusKept(mode, Sum(r.log, In(3600, c.time / 3600)), c.amount);
    PlusKept(mode, Sum(r.log, In(86400, c.time / 86400)), c.amount);
    PlusKept(mode, Sum(r.log, Any()), c.amount);
    hide Plus, Kept, Faithful, FreshReading, Sum;
  }

  /** After any run, a fresh call of an overridden domain `d` is accepted exactly when it meets the four
      limits of the override itself, on the spending of all domains; any other call exactly when it
      meets the four base limits. */
  lemma {:induction false} OverrideGoverns(mode: Mode, b: Budget, calls: seq<Call>, c: Call)
    requires FreshReading(Exec(mode, b, calls).log, c.time)
    ensures var r := Exec(mode, b, calls);
            && (Overridden(b, c) ==>
                  (Judge(mode, b, r.tracker, c).Accepted? <==> Meets(mode, b.domainBudgets[c.domain.value], r.log, c)))
            && (!Overridden(b, c) ==> (Judge(mode, b, r.tracker, c).Accepted? <==> Meets(mode, b, r.log, c)))
  {
    var r := Exec(mode, b, calls);
    RunFaithful(mode, b, calls);
    JudgedByOwn(mode, b, r.tracker, c);
    hide Exec, Judge, Room, Meets, Faithful, FreshReading;
    if Overridden(b, c) {
      RoomMeets(mode, b.domainBudgets[c.domain.value], r, c);
    } else {
      RoomMeets(mode, b, r, c);
    }
  }

  /** Two budgets with the same override for a domain judge every call of that domain alike, whatever
      their base limits and their other overrides; likewise two with the same base limits, a call of a
      domain that neither overrides. */
  lemma {:induction false} OverrideAlone(mode: Mode, b: Budget, b': Budget, t: Tracker, c: Call)
    requires Overridden(b, c) == Overridden(b', c)
    requires if Overridden(b, c) then b.domainBudgets[c.domain.value] == b'.domainBudgets[c.domain.value]
             else b.(domainBudgets := map[]) == b'.(domainBudgets := map[])
    ensures Judge(mode, b, t, c) == Judge(mode, b', t, c)
  {
  }

  /** Calls of domain `d`. */
  ghost function OfDomain(d: string): Call -> bool {
    (c: Call) => c.domain == Some(d)
  }

  /** Calls that no override governs. */
  ghost function OfBase(b: Budget): Call -> bool {
    (c: Call) => !Overridden(b, c)
  }

  lemma {:induction false} SumEqual(log: seq<Call>, p: Call -> bool, q: Call -> bool)
    requires forall c :: p(c) <==> q(c)
    ensures Sum(log, p) == Sum(log, q)
  {
    SumCongruent(log, p, q);
  }

  /** What an overridden domain itself spends in an hour or day stays within the override's own limit,
      and what all others spend within the base limit, over every run with fresh readings in which the
      bucket fits. */
  lemma {:induction false} OverrideSpend(mode: Mode, b: Budget, calls: seq<Call>, d: string, unit: nat, k: nat)
    requires unit == 3600 || unit == 86400
    requires FreshClock(mode, b, calls) && Fits(mode, Sum(Exec(mode, b, calls).log, In(unit, k)))
    ensures var log := Exec(mode, b, calls).log;
            && (d in b.domainBudgets ==>
                  var e := b.domainBudgets[d];
                  && (unit == 3600 && e.hourlyMax.Some? ==>
                        Sum(log, Both(In(unit, k), OfDomain(d))) <= e.hourlyMax.value)
                  && (unit == 86400 && e.dailyMax.Some? ==>
                        Sum(log, Both(In(unit, k), OfDomain(d))) <= e.dailyMax.value))
            && (unit == 3600 && b.hourlyMax.Some? ==> Sum(log, Both(In(unit, k), OfBase(b))) <= b.hourlyMax.value)
            && (unit == 86400 && b.dailyMax.Some? ==> Sum(log, Both(In(unit, k), OfBase(b))) <= b.dailyMax.value)
  {
    var log := Exec(mode, b, calls).log;
    OwnSpendWithin(mode, b, calls, Some(d), unit, k);
    OwnSpendWithin(mode, b, calls, None, unit, k);
    if d in b.domainBudgets {
      SumEqual(log, Both(In(unit, k), OfDomain(d)), Own(b, Some(d), unit, k));
    }
    SumEqual(log, Both(In(unit, k), OfBase(b)), Own(b, None, unit, k));
    hide Exec, Sum, FreshClock;
  }

  /** Likewise over a lifetime, for any clock. */
  lemma {:induction false} OverrideLifetime(mode: Mode, b: Budget, calls: seq<Call>, d: string)
    requires Fits(mode, Sum(Exec(mode, b, calls).log, Any()))
    ensures var log := Exec(mode, b, calls).log;
            && (d in b.domainBudgets && b.domainBudgets[d].totalMax.Some? ==>
                  Sum(log, OfDomain(d)) <= b.domainBudgets[d].totalMax.value)
            && (b.totalMax.Some? ==> Sum(log, OfBase(b)) <= b.totalMax.value)
  {
    var log := Exec(mode, b, calls).log;
    OwnLifetimeWithin(mode, b, calls, Some(d));
    OwnLifetimeWithin(mode, b, calls, None);
    if d in b.domainBudgets {
      SumEqual(log, OfDomain(d), Under(b, Governing(b, Some(d))));
    }
    SumEqual(log, OfBase(b), Under(b, Governing(b, None)));
    hide Exec, Sum;
  }
}
