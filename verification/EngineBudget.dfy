/** What a budget's configuration guarantees of the engine, in every interleaving, and what it does
    not: the tracker's 64-bit counters are shared by all requests, paid or not. */
module EngineBudget {
  import opened Wrappers
  import opened Budget
  import opened BudgetLaws
  import opened BudgetConfig
  import opened BudgetWindows
  import opened BudgetAtOnce
  import BudgetOverrides
  import opened TokenStore
  import opened L402Challenge
  import opened Engine
  import opened EngineLaws
  import opened EngineTheorems
  import opened Bolt11
  import MockChallenge
  import ClosedSystem
  import ClosedLaws

  lemma {:induction false} CallsBounded(cfg: Config, initial: Cache, log: seq<Fact>)
    requires WellFounded(cfg, initial, log)
    ensures AtMost(Calls(log), MAX_CHARGE)
  {
    if |log| > 0 {
      var before, f := log[..|log| - 1], log[|log| - 1];
      CallsBounded(cfg, initial, before);
      if f.Asked? {
        AskBounded(cfg, initial, before, f);
      }
      hide Justified;
    }
  }

  lemma {:induction false} AskBounded(cfg: Config, initial: Cache, before: seq<Fact>, f: Fact)
    requires f.Asked? && Justified(cfg, initial, before, f)
    ensures f.call.amount <= MAX_CHARGE
  {
    var url: string, challenge: L402Challenge :|
      Challenged(f.id, url, challenge) in before && f.call.amount == Charge(cfg.dec, challenge.invoice);
    ChargeBounded(cfg.dec, challenge.invoice);
  }

  // ----- what a covered budget guarantees -----

  /** Over every interleaving, with any invoices, paid or not: under a covered budget `total_spent` is
      the sum of the records, and every domain's own records stay within its lifetime limit. */
  lemma {:induction false} ConfiguredLifetime(cfg: Config, initial: Cache, events: seq<Event>, domain: Option<string>)
    requires Covered(cfg.budget, MAX_CHARGE)
    ensures var s := RunEvents(cfg, initial, events);
            var limit := Effective(cfg.budget, domain).totalMax;
            && s.tracker.total == Recorded(s.log)
            && (limit.Some? ==> Sum(Records(s.log), Under(cfg.budget, Governing(cfg.budget, domain))) <= limit.value)
  {
    var s := RunEvents(cfg, initial, events);
    RunInv(cfg, initial, events);
    CallsBounded(cfg, initial, s.log);
    TrackerIsSequential(cfg, initial, events);
    hide RunEvents, Calls, Records, Exec, Sum, Covered, Effective, WellFounded, TasksAt, StoreKnown;
    CoveredFits(cfg.budget, MAX_CHARGE, Calls(s.log));
    OwnLifetimeWithin(CODE, cfg.budget, Calls(s.log), domain);
  }

  /** And when the clock readings of its budget calls are fresh, within its hourly and daily limits;
      for these it is enough that the unit is limited, or that every budget has some limit. */
  lemma {:induction false} ConfiguredWindow(cfg: Config, initial: Cache, events: seq<Event>, domain: Option<string>,
                                            unit: nat, k: nat, cap: nat)
    requires unit == HOUR || unit == DAY
    requires || Covered(cfg.budget, MAX_CHARGE) || UnitCovered(cfg.budget, unit, MAX_CHARGE)
             || Limited(cfg.budget, MAX_CHARGE, cap)
    requires FreshClock(CODE, cfg.budget, Calls(RunEvents(cfg, initial, events).log))
    ensures var s := RunEvents(cfg, initial, events);
            var limit := LimitOf(Effective(cfg.budget, domain), unit);
            limit.Some? ==> Sum(Records(s.log), Own(cfg.budget, domain, unit, k)) <= limit.value
  {
    var s := RunEvents(cfg, initial, events);
    RunInv(cfg, initial, events);
    CallsBounded(cfg, initial, s.log);
    TrackerIsSequential(cfg, initial, events);
    hide RunEvents, Calls, Records, Exec, Sum, Covered, UnitCovered, Limited, Effective;
    hide WellFounded, TasksAt, StoreKnown;
    WindowHolds(cfg.budget, MAX_CHARGE, cap, Calls(s.log), domain, unit, k);
  }

  /** Said of one override: over every interleaving, what is recorded for an overridden domain stays
      within the override's own lifetime limit, and what is recorded for all domains without an
      override within the base one. */
  lemma {:induction false} ConfiguredOverride(cfg: Config, initial: Cache, events: seq<Event>, d: string)
    requires Covered(cfg.budget, MAX_CHARGE)
    ensures var b, records := cfg.budget, Records(RunEvents(cfg, initial, events).log);
            && (d in b.domainBudgets && b.domainBudgets[d].totalMax.Some? ==>
                  Sum(records, BudgetOverrides.OfDomain(d)) <= b.domainBudgets[d].totalMax.value)
            && (b.totalMax.Some? ==> Sum(records, BudgetOverrides.OfBase(b)) <= b.totalMax.value)
  {
    var s := RunEvents(cfg, initial, events);
    RunInv(cfg, initial, events);
    CallsBounded(cfg, initial, s.log);
    TrackerIsSequential(cfg, initial, events);
    hide RunEvents, Calls, Records, Exec, Sum, Covered, Effective, WellFounded, TasksAt, StoreKnown;
    CoveredFits(cfg.budget, MAX_CHARGE, Calls(s.log));
    BudgetOverrides.OverrideLifetime(CODE, cfg.budget, Calls(s.log), d);
  }

  // ----- and that the condition is needed -----

  /** The clock is read as a 64-bit number of seconds. */
  ghost predicate InTime(events: seq<Event>) {
    forall e :: e in events && e.Step? && e.reply.ClockReply? ==> e.reply.now < U64
  }

  /** A request that asks the budget for `call` and is never paid. */
  function Asking(id: nat, url: string, header: string, call: Call): (events: seq<Event>)
    ensures |events| == 4
  {
    [Spawn(id, url, call.domain), Step(id, StoreReply(true)), Step(id, HttpReply(PAYMENT_REQUIRED, Some(header))),
     Step(id, ClockReply(call.time))]
  }

  lemma {:induction false} AskOnce(cfg: Config, s: State, id: nat, url: string, header: string,
                                   challenge: L402Challenge, call: Call)
    requires id !in s.tasks && url !in s.cache.tokens
    requires Parse(cfg.isBase64, header) == Ok(challenge) && Charge(cfg.dec, challenge.invoice) == call.amount
    ensures var events := Asking(id, url, header, call);
            var s4 := Apply(cfg, Apply(cfg, Apply(cfg, Apply(cfg, s, events[0]), events[1]), events[2]), events[3]);
            && s4.cache == s.cache && s4.tasks.Keys == s.tasks.Keys + {id}
            && Calls(s4.log) == Calls(s.log) + [call]
  {
    hide Parse, Judge, Record, Charge, OnClock, OnPlain;
    var events := Asking(id, url, header, call);
    var s1 := Apply(cfg, s, events[0]);
    var s2 := Apply(cfg, s1, events[1]);
    assert s2 == s1.Goto(id, PlainTry, [Sent(id, url, None)]);
    QuietFact(s.log, Sent(id, url, None));
    AskAnswered(cfg, s2, id, header, challenge, call);
  }

  lemma {:induction false} AskAnswered(cfg: Config, s: State, id: nat, header: string, challenge: L402Challenge,
                                       call: Call)
    requires id in s.tasks && s.tasks[id].pc.PlainTry? && s.tasks[id].host == call.domain
    requires Parse(cfg.isBase64, header) == Ok(challenge) && Charge(cfg.dec, challenge.invoice) == call.amount
    ensures var s' := Apply(cfg, s, Step(id, HttpReply(PAYMENT_REQUIRED, Some(header))));
            var s'' := Apply(cfg, s', Step(id, ClockReply(call.time)));
            s''.cache == s.cache && s''.tasks.Keys == s.tasks.Keys && Calls(s''.log) == Calls(s.log) + [call]
  {
    var a, f := Answered(id, PAYMENT_REQUIRED, Some(header)), Challenged(id, s.tasks[id].url, challenge);
    var s' := s.Note(a).Goto(id, Charging(challenge), [f]);
    hide Parse, Judge, Record, Charge, OnClock, OnPlain, Calls, Apply;
    PlainRead(cfg, s, id, header, challenge);
    QuietFact(s.log, a);
    QuietFact(s.log + [a], f);
    AskDecided(cfg, s', id, challenge, call);
  }

  lemma {:induction false} PlainRead(cfg: Config, s: State, id: nat, header: string, challenge: L402Challenge)
    requires id in s.tasks && s.tasks[id].pc.PlainTry? && Parse(cfg.isBase64, header) == Ok(challenge)
    ensures Apply(cfg, s, Step(id, HttpReply(PAYMENT_REQUIRED, Some(header)))) ==
              s.Note(Answered(id, PAYMENT_REQUIRED, Some(header)))
               .Goto(id, Charging(challenge), [Challenged(id, s.tasks[id].url, challenge)])
  {
    hide Parse, OnClock;
  }

  lemma {:induction false} AskDecided(cfg: Config, s: State, id: nat, challenge: L402Challenge, call: Call)
    requires id in s.tasks && s.tasks[id].pc == Charging(challenge) && s.tasks[id].host == call.domain
    requires Charge(cfg.dec, challenge.invoice) == call.amount
    ensures var s' := Apply(cfg, s, Step(id, ClockReply(call.time)));
            s'.cache == s.cache && s'.tasks.Keys == s.tasks.Keys && Calls(s'.log) == Calls(s.log) + [call]
  {
    hide Judge, Record, Charge, OnClock, OnPlain, Calls;
    var (ask, second, _) := Decision(cfg, s, id, challenge, call.time);
    OnClockIs(cfg, s, id, challenge, call.time);
    assert ask.call == call;
    QuietFact(s.log, ask);
    QuietFact(s.log + [ask], second);
    assert s.log + [ask] + [second] == s.log + [ask, second];
  }

  /** Any sequence of calls for the amount of one invoice is made by some run of the engine. */
  lemma {:induction false} AskAll(cfg: Config, initial: Cache, url: string, header: string, challenge: L402Challenge,
                                  calls: seq<Call>)
    returns (events: seq<Event>)
    requires url !in initial.tokens && Parse(cfg.isBase64, header) == Ok(challenge)
    requires forall c :: c in calls ==> c.amount == Charge(cfg.dec, challenge.invoice)
    ensures var s := RunEvents(cfg, initial, events);
            && Calls(s.log) == calls && s.cache == initial
            && forall id :: id in s.tasks ==> id < |calls|
    ensures Timely(calls) ==> InTime(events)
  {
    if |calls| == 0 {
      events := [];
    } else {
      var n := |calls| - 1;
      var before := AskAll(cfg, initial, url, header, challenge, calls[..n]);
      hide Parse, Charge, Apply, Asking, Calls, RunEvents, InTime;
      AskOnce(cfg, RunEvents(cfg, initial, before), n, url, header, challenge, calls[n]);
      RunAsking(cfg, initial, before, n, url, header, calls[n]);
      AskingInTime(before, n, url, header, calls[n]);
      assert Timely(calls) ==> Timely(calls[..n]) && calls[n].time < U64;
      events := before + Asking(n, url, header, calls[n]);
      assert calls == calls[..n] + [calls[n]];
    }
  }

  lemma {:induction false} RunAsking(cfg: Config, initial: Cache, before: seq<Event>, id: nat, url: string,
                                     header: string, call: Call)
    ensures var s, e := RunEvents(cfg, initial, before), Asking(id, url, header, call);
            RunEvents(cfg, initial, before + e)
            == Apply(cfg, Apply(cfg, Apply(cfg, Apply(cfg, s, e[0]), e[1]), e[2]), e[3])
  {
    var e := Asking(id, url, header, call);
    hide RunEvents, Apply;
    RunPush(cfg, initial, before, e[0]);
    RunPush(cfg, initial, before + [e[0]], e[1]);
    RunPush(cfg, initial, before + [e[0]] + [e[1]], e[2]);
    RunPush(cfg, initial, before + [e[0]] + [e[1]] + [e[2]], e[3]);
    assert before + e == before + [e[0]] + [e[1]] + [e[2]] + [e[3]];
  }

  lemma {:induction false} AskingInTime(before: seq<Event>, id: nat, url: string, header: string, call: Call)
    ensures InTime(before) && call.time < U64 ==> InTime(before + Asking(id, url, header, call))
  {
  }

  /** Some server can state a price of one satoshi for a url that is not in the store. */
  ghost predicate Priced(cfg: Config, initial: Cache, url: string, header: string) {
    && url !in initial.tokens && Parse(cfg.isBase64, header).Ok?
    && Charge(cfg.dec, Parse(cfg.isBase64, header).value.invoice) == 1
  }

  /** The mock server is such a server. */
  lemma {:induction false} PricedByMock(w: ClosedSystem.World, initial: Cache, url: string, preimage: string)
    requires ClosedLaws.Sane(w) && url !in initial.tokens && w.crypto.hash(preimage).Some?
    ensures Priced(w.cfg, initial, url, MockChallenge.Generate(w.crypto, preimage, 1).ToWwwAuthenticate())
  {
    ClosedLaws.ChallengeArrives(w, preimage, 1);
    hide Parse, Charge, MockChallenge.Generate, MockChallenge.PendingChallenge.ToWwwAuthenticate;
  }

  /** With modest limits: in every interleaving `total_spent` is the sum of the records, exactly when
      every effective budget that spends has a lifetime limit. */
  lemma {:induction false} EngineTotalsExactly(cfg: Config, initial: Cache, url: string, header: string)
    requires Modest(cfg.budget, MAX_CHARGE) && Priced(cfg, initial, url, header)
    ensures (forall events: seq<Event> :: InTime(events) ==>
               RunEvents(cfg, initial, events).tracker.total == Recorded(RunEvents(cfg, initial, events).log))
       <==> AllLimited(cfg.budget, MAX_CHARGE)
  {
    var b := cfg.budget;
    ModestCovered(b, MAX_CHARGE);
    if AllLimited(b, MAX_CHARGE) {
      forall events: seq<Event>
        ensures RunEvents(cfg, initial, events).tracker.total == Recorded(RunEvents(cfg, initial, events).log)
      {
        ConfiguredLifetime(cfg, initial, events, None);
      }
    } else {
      var d: Option<string> :| Spends(Effective(b, d), MAX_CHARGE) && Effective(b, d).totalMax.None?;
      OneAtLeast(Effective(b, d));
      var calls := TotalBroken(b, MAX_CHARGE, d, d);
      hide Parse, Charge, Modest, AllLimited, Timely, InTime;
      var events := AskAll(cfg, initial, url, header, Parse(cfg.isBase64, header).value, calls);
      TrackerIsSequential(cfg, initial, events);
    }
  }

  lemma {:induction false} OneAtLeast(e: Budget)
    requires Spends(e, MAX_CHARGE) && e.totalMax.None?
    ensures Ceiling(e) + First(e, MAX_CHARGE) >= U64
  {
  }

  ghost predicate LifetimeWithin(b: Budget, s: State, domain: Option<string>)
    requires Effective(b, domain).totalMax.Some?
  {
    Sum(Records(s.log), Under(b, Governing(b, domain))) <= Effective(b, domain).totalMax.value
  }

  /** Likewise a domain that spends keeps its own lifetime limit in every interleaving, exactly when
      every effective budget that spends has one. */
  lemma {:induction false} EngineLifetimeExactly(cfg: Config, initial: Cache, url: string, header: string,
                                                 domain: Option<string>)
    requires Modest(cfg.budget, MAX_CHARGE) && Priced(cfg, initial, url, header)
    requires Spends(Effective(cfg.budget, domain), MAX_CHARGE) && Effective(cfg.budget, domain).totalMax.Some?
    ensures (forall events: seq<Event> :: InTime(events) ==>
               LifetimeWithin(cfg.budget, RunEvents(cfg, initial, events), domain))
       <==> AllLimited(cfg.budget, MAX_CHARGE)
  {
    var b := cfg.budget;
    ModestCovered(b, MAX_CHARGE);
    if AllLimited(b, MAX_CHARGE) {
      forall events: seq<Event> ensures LifetimeWithin(b, RunEvents(cfg, initial, events), domain) {
        ConfiguredLifetime(cfg, initial, events, domain);
      }
    } else {
      var d: Option<string> :| Spends(Effective(b, d), MAX_CHARGE) && Effective(b, d).totalMax.None?;
      OneAtLeast(Effective(b, d));
      assert Effective(b, domain).totalMax.value < U64;
      var calls := LifetimeOverspent(b, MAX_CHARGE, domain, d, d);
      hide Parse, Charge, Modest, AllLimited, Timely, InTime;
      var events := AskAll(cfg, initial, url, header, Parse(cfg.isBase64, header).value, calls);
      TrackerIsSequential(cfg, initial, events);
    }
  }

  ghost predicate RecordsWithin(b: Budget, s: State, domain: Option<string>, unit: nat, k: nat)
    requires unit > 0 && LimitOf(Effective(b, domain), unit).Some?
  {
    Sum(Records(s.log), Own(b, domain, unit, k)) <= LimitOf(Effective(b, domain), unit).value
  }

  /** Whatever mixture of limits the budgets have: a domain that spends keeps its hourly or daily limit
      in every interleaving with fresh readings exactly when no budget is without all three limits. */
  lemma {:induction false} EngineWindowExactly(cfg: Config, initial: Cache, url: string, header: string,
                                               domain: Option<string>, unit: nat, cap: nat)
    requires (unit == HOUR || unit == DAY) && Priced(cfg, initial, url, header)
    requires Small(cfg.budget, MAX_CHARGE, cap) || UnitOrFree(cfg.budget, unit, MAX_CHARGE)
    requires Spends(Effective(cfg.budget, domain), MAX_CHARGE)
    requires LimitOf(Effective(cfg.budget, domain), unit).Some?
    ensures (forall events: seq<Event>, k: nat ::
               InTime(events) && FreshClock(CODE, cfg.budget, Calls(RunEvents(cfg, initial, events).log)) ==>
               RecordsWithin(cfg.budget, RunEvents(cfg, initial, events), domain, unit, k))
       <==> NoneFree(cfg.budget, MAX_CHARGE)
  {
    var b := cfg.budget;
    hide RunEvents, Calls, Records, Effective, FreshClock, Sum, Small, UnitOrFree, Limited, UnitCovered;
    if NoneFree(b, MAX_CHARGE) {
      LimitsSuffice(b, MAX_CHARGE, cap, unit);
      forall events: seq<Event>, k: nat | FreshClock(CODE, b, Calls(RunEvents(cfg, initial, events).log))
        ensures RecordsWithin(b, RunEvents(cfg, initial, events), domain, unit, k)
      {
        ConfiguredWindow(cfg, initial, events, domain, unit, k, cap);
      }
    } else {
      var d: Option<string> :| Largest(Effective(b, d), MAX_CHARGE) > 0 && Free(Effective(b, d));
      hide Parse, Charge, InTime, Timely;
      var calls := WindowOverspent(b, MAX_CHARGE, domain, d, unit);
      var events := AskAll(cfg, initial, url, header, Parse(cfg.isBase64, header).value, calls);
      TrackerIsSequential(cfg, initial, events);
      assert !RecordsWithin(b, RunEvents(cfg, initial, events), domain, unit, 0);
    }
  }
}
