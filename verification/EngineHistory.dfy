/** Each request's own history, and the store's, out of any interleaving. */
module EngineHistory {
  import opened Wrappers
  import opened TokenStore
  import opened Payment
  import opened Budget
  import opened L402Challenge
  import opened Engine
  import opened EngineLaws
  import opened EngineTheorems
  import StoreLaws
  import ChallengeLaws
  import Bolt11

  // ----- one request's history -----

  /** The facts of one task, in order. */
  ghost function Of(log: seq<Fact>, id: nat): seq<Fact> {
    if |log| == 0 then []
    else
      var before, f := Of(log[..|log| - 1], id), log[|log| - 1];
      if f.id == id then before + [f] else before
  }

  /** A try with a cached token. */
  ghost predicate CacheTried(id: nat, url: string, h: seq<Fact>) {
    |h| == 1 && h[0].Sent? && h[0].id == id && h[0].url == url && h[0].auth.Some?
  }

  /** ... answered. */
  ghost predicate CacheAnswered(id: nat, url: string, status: nat, h: seq<Fact>) {
    |h| == 2 && CacheTried(id, url, h[..1]) && h[1].Answered? && h[1].id == id && h[1].status == status
  }

  /** A try without a token: the first, or after a cached token was answered 402 and removed. */
  ghost predicate PlainTried(id: nat, url: string, h: seq<Fact>) {
    |h| > 0 && h[|h| - 1] == Sent(id, url, None)
    && (|h| == 1 || (|h| == 4 && h[2] == Removed(id, url) && CacheAnswered(id, url, PAYMENT_REQUIRED, h[..2])))
  }

  /** ... answered. */
  ghost predicate PlainAnswered(id: nat, url: string, status: nat, header: Option<string>, h: seq<Fact>) {
    |h| > 0 && h[|h| - 1] == Answered(id, status, header) && PlainTried(id, url, h[..|h| - 1])
  }

  /** ... 402, with a header that reads as this challenge. */
  ghost predicate WasChallenged(cfg: Config, id: nat, url: string, ch: L402Challenge, h: seq<Fact>) {
    |h| > 0 && h[|h| - 1] == Challenged(id, url, ch)
    && exists text: string ::
         PlainAnswered(id, url, PAYMENT_REQUIRED, Some(text), h[..|h| - 1]) && Parse(cfg.isBase64, text) == Ok(ch)
  }

  /** ... then the budget asked for that invoice's charge under that host. */
  ghost predicate WasAsked(cfg: Config, id: nat, url: string, host: Option<string>, ch: L402Challenge,
                           verdict: Verdict, h: seq<Fact>) {
    && |h| > 0 && h[|h| - 1].Asked? && h[|h| - 1].id == id && h[|h| - 1].verdict == verdict
    && h[|h| - 1].call.amount == Bolt11.Charge(cfg.dec, ch.invoice) && h[|h| - 1].call.domain == host
    && WasChallenged(cfg, id, url, ch, h[..|h| - 1])
  }

  /** ... then, if allowed, the payment issued. */
  ghost predicate WasIssued(cfg: Config, id: nat, url: string, host: Option<string>, ch: L402Challenge, h: seq<Fact>) {
    |h| > 0 && h[|h| - 1] == Issued(id, url, ch) && WasAsked(cfg, id, url, host, ch, Accepted, h[..|h| - 1])
  }

  /** ... then made. */
  ghost predicate WasPaid(cfg: Config, id: nat, url: string, host: Option<string>, ch: L402Challenge,
                          p: PaymentResult, h: seq<Fact>) {
    |h| > 0 && h[|h| - 1] == Paid(id, url, ch, p) && WasIssued(cfg, id, url, host, ch, h[..|h| - 1])
  }

  /** ... then the token just bought stored. */
  ghost predicate WasStored(cfg: Config, id: nat, url: string, host: Option<string>, ch: L402Challenge,
                            p: PaymentResult, h: seq<Fact>) {
    && |h| > 0 && h[|h| - 1] == Stored(id, url, (ch.macaroon, p.preimage))
    && WasPaid(cfg, id, url, host, ch, p, h[..|h| - 1])
  }

  /** ... then one try with it. */
  ghost predicate WasRetried(cfg: Config, id: nat, url: string, host: Option<string>, ch: L402Challenge,
                             p: PaymentResult, h: seq<Fact>) {
    && |h| > 0 && h[|h| - 1] == Sent(id, url, Some((ch.macaroon, p.preimage)))
    && WasStored(cfg, id, url, host, ch, p, h[..|h| - 1])
  }

  /** ... answered. */
  ghost predicate RetryAnswered(cfg: Config, id: nat, url: string, host: Option<string>, ch: L402Challenge,
                                p: PaymentResult, status: nat, h: seq<Fact>) {
    && |h| > 0 && h[|h| - 1].Answered? && h[|h| - 1].id == id && h[|h| - 1].status == status
    && WasRetried(cfg, id, url, host, ch, p, h[..|h| - 1])
  }

  /** How far a request had come when it returned. */
  ghost predicate Ending(cfg: Config, id: nat, url: string, host: Option<string>, outcome: Outcome, h: seq<Fact>) {
    match outcome
    case Unpaid(status, cached) =>
      && status != PAYMENT_REQUIRED
      && if cached then CacheAnswered(id, url, status, h)
         else exists header: Option<string> :: PlainAnswered(id, url, status, header, h)
    case Bought(receipt) =>
      exists ch: L402Challenge, p: PaymentResult, status: nat ::
        && RetryAnswered(cfg, id, url, host, ch, p, status, h) && status != PAYMENT_REQUIRED
        && receipt == Receipt(url, p.amountSats, p.feeSats, p.paymentHash, p.preimage, status)
    case Failure(MissingChallenge) => PlainAnswered(id, url, PAYMENT_REQUIRED, None, h)
    case Failure(BadChallenge(reason)) =>
      exists text: string ::
        PlainAnswered(id, url, PAYMENT_REQUIRED, Some(text), h) && Parse(cfg.isBase64, text) == Err(reason)
    case Failure(BudgetExceeded(limit)) =>
      exists ch: L402Challenge :: WasAsked(cfg, id, url, host, ch, Exceeded(limit), h)
    case Failure(PaymentFailed) =>
      && |h| > 0 && h[|h| - 1] == Refused(id)
      && var before := h[..|h| - 1];
      exists ch: L402Challenge :: WasIssued(cfg, id, url, host, ch, before)
    case Failure(RetryFailed) =>
      && |h| > 0 && h[|h| - 1] == Removed(id, url)
      && var before := h[..|h| - 1];
      exists ch: L402Challenge, p: PaymentResult ::
        RetryAnswered(cfg, id, url, host, ch, p, PAYMENT_REQUIRED, before)
    case Failure(HttpFailed) =>
      || CacheTried(id, url, h) || PlainTried(id, url, h)
      || exists ch: L402Challenge, p: PaymentResult :: WasRetried(cfg, id, url, host, ch, p, h)
    case Failure(StoreFailed) =>
      || h == [] || CacheAnswered(id, url, PAYMENT_REQUIRED, h)
      || exists ch: L402Challenge, p: PaymentResult ::
           || WasPaid(cfg, id, url, host, ch, p, h)
           || RetryAnswered(cfg, id, url, host, ch, p, PAYMENT_REQUIRED, h)
  }

  /** The history a task has at its program counter. */
  ghost predicate Story(cfg: Config, id: nat, t: Task, h: seq<Fact>) {
    match t.pc
    case Lookup => h == []
    case CachedTry(token) => h == [Sent(id, t.url, Some(token))]
    case DropRejected => CacheAnswered(id, t.url, PAYMENT_REQUIRED, h)
    case PlainTry => PlainTried(id, t.url, h)
    case Charging(ch) => WasChallenged(cfg, id, t.url, ch, h)
    case Paying(ch) => WasIssued(cfg, id, t.url, t.host, ch, h)
    case Storing(ch, p) => WasPaid(cfg, id, t.url, t.host, ch, p, h)
    case Retrying(ch, p) => WasRetried(cfg, id, t.url, t.host, ch, p, h)
    case Revoking(ch, p) => RetryAnswered(cfg, id, t.url, t.host, ch, p, PAYMENT_REQUIRED, h)
    case Done(outcome) =>
      |h| > 0 && h[|h| - 1] == Returned(id, outcome) && Ending(cfg, id, t.url, t.host, outcome, h[..|h| - 1])
  }

  lemma {:induction false} OfPush(log: seq<Fact>, facts: seq<Fact>, id: nat)
    ensures (forall f :: f in facts ==> f.id == id) ==> Of(log + facts, id) == Of(log, id) + facts
    ensures (forall f :: f in facts ==> f.id != id) ==> Of(log + facts, id) == Of(log, id)
    decreases |facts|
  {
    if |facts| == 0 {
      assert log + facts == log;
    } else {
      var n := |facts| - 1;
      assert (log + facts)[..|log + facts| - 1] == log + facts[..n];
      OfPush(log, facts[..n], id);
      assert facts == facts[..n] + [facts[n]];
      assert forall f :: f in facts[..n] ==> f in facts;
    }
  }

  /** One more fact. */
  lemma {:induction false} Pushed(h: seq<Fact>, f: Fact)
    ensures (h + [f])[..|h|] == h && (h + [f])[|h|] == f && |h + [f]| == |h| + 1
  {
  }

  /** A return after a history that justifies it. */
  lemma {:induction false} ReturnStory(cfg: Config, id: nat, t: Task, outcome: Outcome, h: seq<Fact>)
    requires Ending(cfg, id, t.url, t.host, outcome, h)
    ensures Story(cfg, id, t.(pc := Done(outcome)), h + [Returned(id, outcome)])
  {
    hide Ending;
    Pushed(h, Returned(id, outcome));
  }

  /** The answer to the try with a cached token. */
  lemma {:induction false} CachedStory(cfg: Config, s: State, id: nat, status: nat, header: Option<string>,
                                       h: seq<Fact>)
    requires id in s.tasks && s.tasks[id].pc.CachedTry? && Story(cfg, id, s.tasks[id], h)
    ensures var reply := HttpReply(status, header);
            Story(cfg, id, Advance(cfg, s, id, reply).tasks[id], h + Logged(cfg, s, id, reply))
  {
    var t, f := s.tasks[id], Answered(id, status, header);
    Pushed(h, f);
    assert CacheAnswered(id, t.url, status, h + [f]);
    if status != PAYMENT_REQUIRED {
      ReturnStory(cfg, id, t, Unpaid(status, true), h + [f]);
      assert h + [f] + [Returned(id, Unpaid(status, true))] == h + [f, Returned(id, Unpaid(status, true))];
    }
    hide Ending, CacheAnswered;
  }

  /** The answer to the try without one. */
  lemma {:induction false} PlainStory(cfg: Config, s: State, id: nat, status: nat, header: Option<string>, h: seq<Fact>)
    requires id in s.tasks && s.tasks[id].pc.PlainTry? && PlainTried(id, s.tasks[id].url, h)
    ensures var url := s.tasks[id].url;
            Story(cfg, id, OnPlain(cfg, s, id, status, header).tasks[id],
                  h + [Answered(id, status, header), AfterPlain(cfg, id, url, status, header)])
  {
    hide Parse, PlainTried;
    var t, f := s.tasks[id], Answered(id, status, header);
    var next := AfterPlain(cfg, id, t.url, status, header);
    Pushed(h, f);
    Pushed(h + [f], next);
    assert h + [f] + [next] == h + [f, next];
    assert PlainAnswered(id, t.url, status, header, h + [f]);
    hide PlainAnswered;
    if next.Returned? {
      ReturnStory(cfg, id, t, next.outcome, h + [f]);
    }
  }

  /** The budget decision. */
  lemma {:induction false} ClockStory(cfg: Config, s: State, id: nat, challenge: L402Challenge, now: nat, h: seq<Fact>)
    requires id in s.tasks && s.tasks[id].pc == Charging(challenge)
    requires WasChallenged(cfg, id, s.tasks[id].url, challenge, h)
    ensures var (ask, second, _) := Decision(cfg, s, id, challenge, now);
            Story(cfg, id, OnClock(cfg, s, id, challenge, now).tasks[id], h + [ask, second])
  {
    var (ask, second, pc) := Decision(cfg, s, id, challenge, now);
    OnClockIs(cfg, s, id, challenge, now);
    hide Judge, Record, Bolt11.Charge, OnClock, Story, WasChallenged;
    DecisionStory(cfg, id, s.tasks[id].(pc := pc), challenge, ask, second, h);
    assert h + [ask, second] == h + [ask] + [second];
  }

  /** The history after a budget decision. */
  lemma {:induction false} DecisionStory(cfg: Config, id: nat, t: Task, challenge: L402Challenge, ask: Fact,
                                         second: Fact, h: seq<Fact>)
    requires WasChallenged(cfg, id, t.url, challenge, h)
    requires ask.Asked? && ask.id == id && ask.call.domain == t.host
    requires ask.call.amount == Bolt11.Charge(cfg.dec, challenge.invoice)
    requires match ask.verdict
             case Accepted => second == Issued(id, t.url, challenge) && t.pc == Paying(challenge)
             case Exceeded(limit) =>
               var outcome := Failure(BudgetExceeded(limit));
               second == Returned(id, outcome) && t.pc == Done(outcome)
    ensures Story(cfg, id, t, h + [ask] + [second])
  {
    hide Bolt11.Charge, WasChallenged;
    Pushed(h, ask);
    Pushed(h + [ask], second);
    assert WasAsked(cfg, id, t.url, t.host, challenge, ask.verdict, h + [ask]);
    hide WasAsked;
  }

  /** The answer of the backend. */
  lemma {:induction false} PayStory(cfg: Config, s: State, id: nat, reply: Reply, h: seq<Fact>)
    requires id in s.tasks && s.tasks[id].pc.Paying? && (reply.PayReply? || reply.PayError?)
    requires Story(cfg, id, s.tasks[id], h)
    ensures Story(cfg, id, Advance(cfg, s, id, reply).tasks[id], h + Logged(cfg, s, id, reply))
  {
    hide WasIssued;
    var t := s.tasks[id];
    if reply.PayReply? {
      Pushed(h, Paid(id, t.url, t.pc.challenge, reply.payment));
    } else {
      var outcome := Failure(PaymentFailed);
      Pushed(h, Refused(id));
      ReturnStory(cfg, id, t, outcome, h + [Refused(id)]);
      assert h + [Refused(id)] + [Returned(id, outcome)] == h + [Refused(id), Returned(id, outcome)];
    }
  }

  /** The answer of the store, when it does not fail. */
  lemma {:induction false} StoreStory(cfg: Config, s: State, id: nat, h: seq<Fact>)
    requires id in s.tasks && AwaitsStore(s.tasks[id].pc) && Story(cfg, id, s.tasks[id], h)
    ensures var reply := StoreReply(true);
            Story(cfg, id, Advance(cfg, s, id, reply).tasks[id], h + Logged(cfg, s, id, reply))
  {
    hide WasPaid, Cache.Put, Cache.Remove, WasRetried, RetryAnswered, CacheAnswered;
    var t := s.tasks[id];
    var facts := Logged(cfg, s, id, StoreReply(true));
    match t.pc
    case Lookup =>
      assert h + facts == facts;
    case DropRejected =>
      assert h[..2] == h by { CacheLength(id, t.url, h); }
      assert h + facts == h + [facts[0]] + [facts[1]];
      assert (h + facts)[..2] == h;
    case Storing(ch, p) =>
      Pushed(h, facts[0]);
      Pushed(h + [facts[0]], facts[1]);
      assert h + facts == h + [facts[0]] + [facts[1]];
      RetriedNow(cfg, id, t, ch, p, h);
    case Revoking(ch, p) =>
      Pushed(h, facts[0]);
      assert h + facts == h + [facts[0]] + [facts[1]];
      ReturnStory(cfg, id, t, Failure(RetryFailed), h + [facts[0]]);
  }

  lemma {:induction false} CacheLength(id: nat, url: string, h: seq<Fact>)
    requires CacheAnswered(id, url, PAYMENT_REQUIRED, h)
    ensures |h| == 2 && h[..2] == h
  {
  }

  lemma {:induction false} RetriedNow(cfg: Config, id: nat, t: Task, ch: L402Challenge, p: PaymentResult, h: seq<Fact>)
    requires WasPaid(cfg, id, t.url, t.host, ch, p, h)
    ensures var token := TokenOf(ch, p);
            WasRetried(cfg, id, t.url, t.host, ch, p, h + [Stored(id, t.url, token)] + [Sent(id, t.url, Some(token))])
  {
    hide WasPaid;
    Pushed(h, Stored(id, t.url, TokenOf(ch, p)));
    Pushed(h + [Stored(id, t.url, TokenOf(ch, p))], Sent(id, t.url, Some(TokenOf(ch, p))));
  }

  /** The answer to the retry. */
  lemma {:induction false} RetryStory(cfg: Config, s: State, id: nat, status: nat, header: Option<string>, h: seq<Fact>)
    requires id in s.tasks && s.tasks[id].pc.Retrying? && Story(cfg, id, s.tasks[id], h)
    ensures var reply := HttpReply(status, header);
            Story(cfg, id, Advance(cfg, s, id, reply).tasks[id], h + Logged(cfg, s, id, reply))
  {
    hide WasRetried;
    var t, f := s.tasks[id], Answered(id, status, header);
    Pushed(h, f);
    assert RetryAnswered(cfg, id, t.url, t.host, t.pc.challenge, t.pc.payment, status, h + [f]);
    hide RetryAnswered;
    if status != PAYMENT_REQUIRED {
      var outcome := Bought(ReceiptOf(t.url, t.pc.payment, status));
      ReturnStory(cfg, id, t, outcome, h + [f]);
      assert h + [f] + [Returned(id, outcome)] == h + [f, Returned(id, outcome)];
    }
  }

  /** A reply that fails, or that is not awaited. */
  lemma {:induction false} FailureStory(cfg: Config, s: State, id: nat, reply: Reply, h: seq<Fact>)
    requires id in s.tasks && Story(cfg, id, s.tasks[id], h)
    requires reply == StoreReply(false) || reply == HttpError
    ensures Story(cfg, id, Advance(cfg, s, id, reply).tasks[id], h + Logged(cfg, s, id, reply))
  {
    hide WasRetried, WasPaid, RetryAnswered, CacheAnswered, PlainTried, WasChallenged, WasIssued;
    var t := s.tasks[id];
    if reply.StoreReply? && AwaitsStore(t.pc) {
      ReturnStory(cfg, id, t, Failure(StoreFailed), h);
    } else if reply.HttpError? && AwaitsServer(t.pc) {
      assert t.pc.CachedTry? ==> CacheTried(id, t.url, h);
      ReturnStory(cfg, id, t, Failure(HttpFailed), h);
    } else {
      assert h + [] == h;
    }
  }

  /** The step extends the story of its request. */
  lemma {:induction false} StoryStep(cfg: Config, s: State, id: nat, reply: Reply, h: seq<Fact>)
    requires id in s.tasks && Story(cfg, id, s.tasks[id], h)
    ensures Story(cfg, id, Advance(cfg, s, id, reply).tasks[id], h + Logged(cfg, s, id, reply))
  {
    hide OnPlain, OnClock, Cache.Put, Cache.Remove, Cache.Get, Decision, AfterPlain, PlainTried, WasChallenged;
    hide WasIssued, WasPaid, WasRetried, RetryAnswered, CacheAnswered, Ending;
    match (s.tasks[id].pc, reply)
    case (CachedTry(_), HttpReply(status, header)) => CachedStory(cfg, s, id, status, header, h);
    case (PlainTry, HttpReply(status, header)) => PlainStory(cfg, s, id, status, header, h);
    case (Charging(challenge), ClockReply(now)) => ClockStory(cfg, s, id, challenge, now, h);
    case (Paying(_), PayReply(_)) => PayStory(cfg, s, id, reply, h);
    case (Paying(_), PayError) => PayStory(cfg, s, id, reply, h);
    case (Retrying(_, _), HttpReply(status, header)) => RetryStory(cfg, s, id, status, header, h);
    case (_, StoreReply(ok)) =>
      if !ok {
        FailureStory(cfg, s, id, reply, h);
      } else if AwaitsStore(s.tasks[id].pc) {
        StoreStory(cfg, s, id, h);
      } else {
        assert h + [] == h;
      }
    case (_, HttpError) => FailureStory(cfg, s, id, reply, h);
    case _ =>
      assert h + [] == h;
  }

  /** Every request's own history is that of one undisturbed run of `request`, as far as it has
      come: at most one try with a cached token and its answer; if that was 402, a removal and one
      try without a token; its answer, and if that was 402 with a readable header, that challenge;
      one budget decision on its charge under the url's host; one payment, stored; one retry with
      exactly the token bought, and its answer; and a return that tells where it stopped. Other
      requests never show in it. */
  lemma {:induction false} RequestHistory(cfg: Config, initial: Cache, events: seq<Event>, id: nat)
    ensures var s := RunEvents(cfg, initial, events);
            if id in s.tasks then Story(cfg, id, s.tasks[id], Of(s.log, id)) else Of(s.log, id) == []
  {
    if |events| > 0 {
      RequestHistory(cfg, initial, events[..|events| - 1], id);
      var s, event := RunEvents(cfg, initial, events[..|events| - 1]), events[|events| - 1];
      if event.Step? && event.id in s.tasks {
        var facts := Logged(cfg, s, event.id, event.reply);
        AdvanceLogged(cfg, s, event.id, event.reply);
        LoggedOwn(cfg, s, event.id, event.reply);
        OfPush(s.log, facts, id);
        AdvanceRank(cfg, s, event.id, event.reply, id);
        if event.id == id {
          StoryStep(cfg, s, id, event.reply, Of(s.log, id));
        } else {
          AdvanceElsewhere(cfg, s, event.id, event.reply, id);
        }
        hide Advance, Story, Of, Logged;
      }
    }
  }

  lemma {:induction false} AdvanceElsewhere(cfg: Config, s: State, id: nat, reply: Reply, other: nat)
    requires id in s.tasks && other != id
    ensures var s' := Advance(cfg, s, id, reply);
            (other in s'.tasks <==> other in s.tasks) && (other in s.tasks ==> s'.tasks[other] == s.tasks[other])
  {
    hide Parse, Judge, Record, ChargeCall, Cache.Put, Cache.Remove, Cache.Get;
  }

  // ----- answers decide -----

  /** The fact before the end of `g`, if there is one. */
  function Back(g: seq<Fact>, n: nat): Option<Fact> {
    if n < |g| then Some(g[|g| - 1 - n]) else None
  }

  /** `g` ends in a send answered with `status`; the send carried a token or not. */
  ghost predicate AnsweredLast(g: seq<Fact>, withToken: bool, status: nat) {
    |g| >= 2 && g[|g| - 1].Answered? && g[|g| - 1].status == status
    && g[|g| - 2].Sent? && g[|g| - 2].auth.Some? == withToken
  }

  /** `g` ends in this purchase: paid, stored, and sent with the retry. */
  ghost predicate Retried(g: seq<Fact>, url: string, ch: L402Challenge, p: PaymentResult) {
    var token := (ch.macaroon, p.preimage);
    |g| >= 3 && g[|g| - 1].Sent? && g[|g| - 1].auth == Some(token) && g[|g| - 1].url == url
    && g[|g| - 2].Stored? && g[|g| - 3].Paid? && g[|g| - 3].challenge == ch && g[|g| - 3].payment == p
  }

  /** When `f` may follow `g` in the history of one request. */
  ghost predicate Follows(cfg: Config, url: string, g: seq<Fact>, f: Fact) {
    match f
    case Sent(_, u, None) =>
      u == url && (g == [] || (|g| == 3 && g[2].Removed? && AnsweredLast(g[..2], true, PAYMENT_REQUIRED)))
    case Sent(_, u, Some(token)) => u == url && (g == [] || (Back(g, 0).Some? && Back(g, 0).value.Stored?
                                                 && Back(g, 0).value.token == token))
    case Answered(_, _, _) => Back(g, 0).Some? && Back(g, 0).value.Sent?
    case Removed(_, u) => u == url && AnsweredLast(g, true, PAYMENT_REQUIRED)
    case Challenged(_, u, ch) =>
      && u == url && AnsweredLast(g, false, PAYMENT_REQUIRED) && g[|g| - 1].header.Some?
      && Parse(cfg.isBase64, g[|g| - 1].header.value) == Ok(ch)
    case Asked(_, call, _) =>
      && Back(g, 0).Some? && Back(g, 0).value.Challenged?
      && call.amount == Bolt11.Charge(cfg.dec, Back(g, 0).value.challenge.invoice)
    case Issued(_, u, ch) =>
      && u == url && Back(g, 0).Some? && Back(g, 0).value.Asked? && Back(g, 0).value.verdict.Accepted?
      && Back(g, 1).Some? && Back(g, 1).value.Challenged? && Back(g, 1).value.challenge == ch
    case Paid(_, u, ch, _) =>
      u == url && Back(g, 0).Some? && Back(g, 0).value.Issued? && Back(g, 0).value.challenge == ch
    case Refused(_) => Back(g, 0).Some? && Back(g, 0).value.Issued?
    case Stored(_, u, token) =>
      && u == url && Back(g, 0).Some? && Back(g, 0).value.Paid?
      && token == (Back(g, 0).value.challenge.macaroon, Back(g, 0).value.payment.preimage)
    case Returned(_, Unpaid(status, cached)) =>
      status != PAYMENT_REQUIRED && AnsweredLast(g, cached, status) && (cached ==> |g| == 2)
    case Returned(_, Bought(receipt)) =>
      && AnsweredLast(g, true, receipt.responseStatus) && receipt.responseStatus != PAYMENT_REQUIRED
      && Back(g, 2).Some? && Back(g, 2).value.Stored? && Back(g, 3).Some? && Back(g, 3).value.Paid?
      && var p := Back(g, 3).value.payment;
      receipt == Receipt(url, p.amountSats, p.feeSats, p.paymentHash, p.preimage, receipt.responseStatus)
    case Returned(_, Failure(error)) => FailsAfter(cfg, g, error)
  }

  ghost predicate FailsAfter(cfg: Config, g: seq<Fact>, error: ClientError) {
    match error
    case StoreFailed =>
      || g == [] || AnsweredLast(g, true, PAYMENT_REQUIRED) || (Back(g, 0).Some? && Back(g, 0).value.Paid?)
    case HttpFailed => Back(g, 0).Some? && Back(g, 0).value.Sent?
    case MissingChallenge => AnsweredLast(g, false, PAYMENT_REQUIRED) && g[|g| - 1].header.None?
    case BadChallenge(reason) =>
      && AnsweredLast(g, false, PAYMENT_REQUIRED) && g[|g| - 1].header.Some?
      && Parse(cfg.isBase64, g[|g| - 1].header.value) == Err(reason)
    case BudgetExceeded(limit) =>
      Back(g, 0).Some? && Back(g, 0).value.Asked? && Back(g, 0).value.verdict == Exceeded(limit)
    case PaymentFailed => Back(g, 0).Some? && Back(g, 0).value.Refused?
    case RetryFailed => |g| > 3 && Back(g, 0).value.Removed?
  }

  /** Every fact of the history may follow what is before it. */
  ghost predicate Grammatical(cfg: Config, url: string, h: seq<Fact>) {
    forall i :: 0 <= i < |h| ==> Follows(cfg, url, h[..i], h[i])
  }

  lemma {:induction false} GrammarPush(cfg: Config, url: string, h: seq<Fact>, f: Fact)
    requires Grammatical(cfg, url, h) && Follows(cfg, url, h, f)
    ensures Grammatical(cfg, url, h + [f])
  {
    hide Follows;
    forall i | 0 <= i < |h| + 1 ensures Follows(cfg, url, (h + [f])[..i], (h + [f])[i]) {
      if i < |h| {
        assert (h + [f])[..i] == h[..i];
      } else {
        assert (h + [f])[..i] == h;
      }
    }
  }

  /** What a request's program counter says about the end of its history. */
  ghost predicate Rests(url: string, pc: Pc, h: seq<Fact>) {
    match pc
    case Lookup => h == []
    case CachedTry(_) => |h| == 1 && h[0].Sent? && h[0].auth.Some?
    case DropRejected => |h| == 2 && AnsweredLast(h, true, PAYMENT_REQUIRED)
    case PlainTry => |h| > 0 && h[|h| - 1].Sent? && h[|h| - 1].auth.None?
    case Charging(ch) => |h| > 0 && h[|h| - 1].Challenged? && h[|h| - 1].challenge == ch
    case Paying(ch) => |h| > 0 && h[|h| - 1].Issued? && h[|h| - 1].challenge == ch
    case Storing(ch, p) => |h| > 0 && h[|h| - 1].Paid? && h[|h| - 1].challenge == ch && h[|h| - 1].payment == p
    case Retrying(ch, p) => Retried(h, url, ch, p)
    case Revoking(ch, p) =>
      |h| > 3 && AnsweredLast(h, true, PAYMENT_REQUIRED) && Retried(h[..|h| - 1], url, ch, p)
    case Done(outcome) => |h| > 0 && h[|h| - 1].Returned? && h[|h| - 1].outcome == outcome
  }

  /** Two facts, or one, or none. */
  lemma {:induction false} GrammarFew(cfg: Config, url: string, h: seq<Fact>, facts: seq<Fact>)
    requires Grammatical(cfg, url, h) && |facts| <= 2
    requires |facts| > 0 ==> Follows(cfg, url, h, facts[0])
    requires |facts| > 1 ==> Follows(cfg, url, h + [facts[0]], facts[1])
    ensures Grammatical(cfg, url, h + facts)
  {
    hide Grammatical, Follows;
    if |facts| == 0 {
      assert h + facts == h;
    } else {
      GrammarPush(cfg, url, h, facts[0]);
      if |facts| == 1 {
        assert h + facts == h + [facts[0]];
      } else {
        GrammarPush(cfg, url, h + [facts[0]], facts[1]);
        assert h + facts == h + [facts[0]] + [facts[1]];
      }
    }
  }

  /** The steps that await no server. */
  lemma {:induction false} OtherGrammar(cfg: Config, s: State, id: nat, reply: Reply, h: seq<Fact>)
    requires id in s.tasks && !AwaitsServer(s.tasks[id].pc) && !s.tasks[id].pc.Charging?
    requires Grammatical(cfg, s.tasks[id].url, h) && Rests(s.tasks[id].url, s.tasks[id].pc, h)
    ensures var facts, s' := Logged(cfg, s, id, reply), Advance(cfg, s, id, reply);
            Grammatical(cfg, s.tasks[id].url, h + facts) && Rests(s.tasks[id].url, s'.tasks[id].pc, h + facts)
  {
    FewLogged(cfg, s, id, reply);
    hide Grammatical, Follows, Rests, Logged, Advance;
    FirstGrammar(cfg, s, id, reply, h);
    SecondGrammar(cfg, s, id, reply, h);
    OtherRests(cfg, s, id, reply, h);
    GrammarFew(cfg, s.tasks[id].url, h, Logged(cfg, s, id, reply));
  }

  lemma {:induction false} FirstGrammar(cfg: Config, s: State, id: nat, reply: Reply, h: seq<Fact>)
    requires id in s.tasks && !AwaitsServer(s.tasks[id].pc) && !s.tasks[id].pc.Charging?
    requires Rests(s.tasks[id].url, s.tasks[id].pc, h)
    ensures var facts := Logged(cfg, s, id, reply);
            |facts| > 0 ==> Follows(cfg, s.tasks[id].url, h, facts[0])
  {
    hide Cache.Put, Cache.Remove, Cache.Get, Parse, Bolt11.Charge;
  }

  lemma {:induction false} OtherRests(cfg: Config, s: State, id: nat, reply: Reply, h: seq<Fact>)
    requires id in s.tasks && !AwaitsServer(s.tasks[id].pc) && !s.tasks[id].pc.Charging?
    requires Rests(s.tasks[id].url, s.tasks[id].pc, h)
    ensures Rests(s.tasks[id].url, Advance(cfg, s, id, reply).tasks[id].pc, h + Logged(cfg, s, id, reply))
  {
    hide Cache.Put, Cache.Remove, Cache.Get, Parse, Bolt11.Charge;
  }

  lemma {:induction false} SecondGrammar(cfg: Config, s: State, id: nat, reply: Reply, h: seq<Fact>)
    requires id in s.tasks && !AwaitsServer(s.tasks[id].pc) && !s.tasks[id].pc.Charging?
    requires Rests(s.tasks[id].url, s.tasks[id].pc, h)
    ensures var facts := Logged(cfg, s, id, reply);
            |facts| > 1 ==> Follows(cfg, s.tasks[id].url, h + [facts[0]], facts[1])
  {
    hide Parse, Bolt11.Charge;
    var facts := Logged(cfg, s, id, reply);
    if |facts| > 1 {
      Pushed(h, facts[0]);
      assert s.tasks[id].pc.DropRejected? ==> (h + [facts[0]])[..2] == h;
    }
  }

  lemma {:induction false} ClockGrammar(cfg: Config, s: State, id: nat, now: nat, h: seq<Fact>)
    requires id in s.tasks && s.tasks[id].pc.Charging?
    requires Grammatical(cfg, s.tasks[id].url, h) && Rests(s.tasks[id].url, s.tasks[id].pc, h)
    ensures var ch, url := s.tasks[id].pc.challenge, s.tasks[id].url;
            var (ask, second, pc) := Decision(cfg, s, id, ch, now);
            Grammatical(cfg, url, h + [ask, second]) && Rests(url, pc, h + [ask, second])
  {
    hide Judge, Bolt11.Charge, Grammatical, Parse;
    var url := s.tasks[id].url;
    var (ask, second, pc) := Decision(cfg, s, id, s.tasks[id].pc.challenge, now);
    Pushed(h, ask);
    Pushed(h + [ask], second);
    GrammarPush(cfg, url, h, ask);
    GrammarPush(cfg, url, h + [ask], second);
    assert h + [ask, second] == h + [ask] + [second];
  }

  /** The fact after an answer, if there is one, is what the answer decides. */
  lemma {:induction false} AnswerDecides(cfg: Config, s: State, id: nat, status: nat, header: Option<string>,
                                         h: seq<Fact>)
    requires id in s.tasks && AwaitsServer(s.tasks[id].pc) && Rests(s.tasks[id].url, s.tasks[id].pc, h)
    ensures var facts := Logged(cfg, s, id, HttpReply(status, header));
            && facts[0] == Answered(id, status, header) && Follows(cfg, s.tasks[id].url, h, facts[0])
            && (|facts| == 2 ==> Follows(cfg, s.tasks[id].url, h + [facts[0]], facts[1]))
  {
    hide Parse;
    Pushed(h, Answered(id, status, header));
  }

  lemma {:induction false} AnswerRests(cfg: Config, s: State, id: nat, status: nat, header: Option<string>,
                                       h: seq<Fact>)
    requires id in s.tasks && AwaitsServer(s.tasks[id].pc) && Rests(s.tasks[id].url, s.tasks[id].pc, h)
    ensures var reply := HttpReply(status, header);
            Rests(s.tasks[id].url, Advance(cfg, s, id, reply).tasks[id].pc, h + Logged(cfg, s, id, reply))
  {
    hide Parse;
    Pushed(h, Answered(id, status, header));
  }

  /** The answers of the server. */
  lemma {:induction false} AnswerGrammar(cfg: Config, s: State, id: nat, status: nat, header: Option<string>,
                                         h: seq<Fact>)
    requires id in s.tasks && AwaitsServer(s.tasks[id].pc)
    requires Grammatical(cfg, s.tasks[id].url, h) && Rests(s.tasks[id].url, s.tasks[id].pc, h)
    ensures var reply := HttpReply(status, header);
            var facts, s' := Logged(cfg, s, id, reply), Advance(cfg, s, id, reply);
            Grammatical(cfg, s.tasks[id].url, h + facts) && Rests(s.tasks[id].url, s'.tasks[id].pc, h + facts)
  {
    AnswerRests(cfg, s, id, status, header, h);
    AnswerDecides(cfg, s, id, status, header, h);
    var url, facts := s.tasks[id].url, Logged(cfg, s, id, HttpReply(status, header));
    assert 1 <= |facts| <= 2;
    hide Grammatical, Parse, Follows, Rests, Logged, Advance;
    GrammarFew(cfg, url, h, facts);
  }

  lemma {:induction false} ErrorGrammar(cfg: Config, s: State, id: nat, reply: Reply, h: seq<Fact>)
    requires id in s.tasks && AwaitsServer(s.tasks[id].pc) && !reply.HttpReply?
    requires Grammatical(cfg, s.tasks[id].url, h) && Rests(s.tasks[id].url, s.tasks[id].pc, h)
    ensures var facts, s' := Logged(cfg, s, id, reply), Advance(cfg, s, id, reply);
            Grammatical(cfg, s.tasks[id].url, h + facts) && Rests(s.tasks[id].url, s'.tasks[id].pc, h + facts)
  {
    hide Grammatical, Parse;
    if reply.HttpError? {
      var f := Returned(id, Failure(HttpFailed));
      Pushed(h, f);
      GrammarPush(cfg, s.tasks[id].url, h, f);
    } else {
      assert h + [] == h;
    }
  }

  lemma {:induction false} GrammarStep(cfg: Config, s: State, id: nat, reply: Reply, h: seq<Fact>)
    requires id in s.tasks
    requires Grammatical(cfg, s.tasks[id].url, h) && Rests(s.tasks[id].url, s.tasks[id].pc, h)
    ensures var facts, s' := Logged(cfg, s, id, reply), Advance(cfg, s, id, reply);
            && id in s'.tasks && s'.tasks[id].url == s.tasks[id].url
            && Grammatical(cfg, s.tasks[id].url, h + facts) && Rests(s.tasks[id].url, s'.tasks[id].pc, h + facts)
  {
    UrlStays(cfg, s, id, reply);
    hide Grammatical, Rests, Decision, AfterPlain, OnPlain, OnClock, Cache.Put, Cache.Remove, Cache.Get;
    var pc := s.tasks[id].pc;
    if AwaitsServer(pc) && reply.HttpReply? {
      AnswerGrammar(cfg, s, id, reply.status, reply.wwwAuthenticate, h);
    } else if AwaitsServer(pc) {
      ErrorGrammar(cfg, s, id, reply, h);
    } else if pc.Charging? && reply.ClockReply? {
      ClockGrammar(cfg, s, id, reply.now, h);
      OnClockIs(cfg, s, id, pc.challenge, reply.now);
    } else if pc.Charging? {
      assert h + [] == h;
    } else {
      OtherGrammar(cfg, s, id, reply, h);
    }
  }

  lemma {:induction false} UrlStays(cfg: Config, s: State, id: nat, reply: Reply)
    requires id in s.tasks
    ensures id in Advance(cfg, s, id, reply).tasks && Advance(cfg, s, id, reply).tasks[id].url == s.tasks[id].url
  {
    hide Parse, OnClock, Cache.Put, Cache.Remove, Cache.Get;
    if s.tasks[id].pc.Charging? && reply.ClockReply? {
      OnClockIs(cfg, s, id, s.tasks[id].pc.challenge, reply.now);
    }
  }

  /** In every interleaving, what a request does next is decided by the answer before it: a plain
      send follows a cached one exactly when that was answered 402, and a token is removed exactly
      then or when the retry was; a challenge is read exactly when the plain send was answered 402
      with a header that parses to it; any other status is returned as it came; and the outcome is
      `Bought` exactly when the retry was answered anything but 402. */
  lemma {:induction false} AnswersDecide(cfg: Config, initial: Cache, events: seq<Event>, id: nat)
    ensures var s := RunEvents(cfg, initial, events);
            if id in s.tasks then
              Grammatical(cfg, s.tasks[id].url, Of(s.log, id)) && Rests(s.tasks[id].url, s.tasks[id].pc, Of(s.log, id))
            else Of(s.log, id) == []
  {
    if |events| > 0 {
      AnswersDecide(cfg, initial, events[..|events| - 1], id);
      var s, event := RunEvents(cfg, initial, events[..|events| - 1]), events[|events| - 1];
      if event.Step? && event.id in s.tasks {
        var facts := Logged(cfg, s, event.id, event.reply);
        AdvanceLogged(cfg, s, event.id, event.reply);
        LoggedOwn(cfg, s, event.id, event.reply);
        OfPush(s.log, facts, id);
        AdvanceRank(cfg, s, event.id, event.reply, id);
        if event.id == id {
          GrammarStep(cfg, s, id, event.reply, Of(s.log, id));
        } else {
          AdvanceElsewhere(cfg, s, event.id, event.reply, id);
        }
        hide Advance, Grammatical, Rests, Of, Logged;
      }
    }
  }

  /** From the history of a returned request alone: it returned a paid response exactly when it made a
      purchase whose retry was answered anything but 402; an unpaid one exactly when a send before any
      purchase was answered anything but 402; and either carries the status answered. */
  lemma {:induction false} OutcomeDecided(cfg: Config, initial: Cache, events: seq<Event>, id: nat, outcome: Outcome)
    requires var s := RunEvents(cfg, initial, events); id in s.tasks && s.tasks[id].pc == Done(outcome)
    ensures var h := Of(RunEvents(cfg, initial, events).log, id);
            && |h| > 0 && h[|h| - 1].Returned? && h[|h| - 1].outcome == outcome
            && var g := h[..|h| - 1];
            && (outcome.Bought? <==> Answer(g).Some? && Answer(g).value != PAYMENT_REQUIRED && Purchased(g))
            && (outcome.Unpaid? <==> Answer(g).Some? && Answer(g).value != PAYMENT_REQUIRED && !Purchased(g))
            && (outcome.Bought? ==> outcome.receipt.responseStatus == Answer(g).value)
            && (outcome.Unpaid? ==> outcome.status == Answer(g).value)
  {
    AnswersDecide(cfg, initial, events, id);
    var s := RunEvents(cfg, initial, events);
    hide RunEvents, Of, Parse;
    ReturnDecided(cfg, s.tasks[id].url, outcome, Of(s.log, id));
  }

  lemma {:induction false} ReturnDecided(cfg: Config, url: string, outcome: Outcome, h: seq<Fact>)
    requires Grammatical(cfg, url, h) && |h| > 0 && h[|h| - 1].Returned? && h[|h| - 1].outcome == outcome
    ensures var g := h[..|h| - 1];
            && (outcome.Bought? <==> Answer(g).Some? && Answer(g).value != PAYMENT_REQUIRED && Purchased(g))
            && (outcome.Unpaid? <==> Answer(g).Some? && Answer(g).value != PAYMENT_REQUIRED && !Purchased(g))
            && (outcome.Bought? ==> outcome.receipt.responseStatus == Answer(g).value)
            && (outcome.Unpaid? ==> outcome.status == Answer(g).value)
  {
    hide Parse, Bolt11.Charge;
    var g := h[..|h| - 1];
    assert Follows(cfg, url, g, h[|h| - 1]);
    if Purchased(g) && Answer(g).Some? {
      assert g[|g| - 3] == h[|g| - 3] && g[|g| - 2] == h[|g| - 2] && g[|g| - 1] == h[|g| - 1];
      assert Follows(cfg, url, h[..|g| - 1], h[|g| - 1]);
      assert Follows(cfg, url, h[..|g| - 2], h[|g| - 2]);
    }
    hide Grammatical;
  }

  /** The status by which the last send was answered, if nothing came after. */
  function Answer(g: seq<Fact>): Option<nat> {
    if |g| > 0 && g[|g| - 1].Answered? then Some(g[|g| - 1].status) else None
  }

  /** The last send was the retry of a purchase. */
  function Purchased(g: seq<Fact>): bool {
    |g| > 2 && g[|g| - 3].Stored?
  }

  // ----- what is paid for -----

  /** The challenge was read from an answer 402 to the same request, and is well formed. */
  ghost predicate ReadBefore(cfg: Config, log: seq<Fact>, i: nat, ch: L402Challenge)
    requires i < |log|
  {
    && cfg.isBase64(ch.macaroon) && ChallengeLaws.KnownPrefix(ch.invoice)
    && exists j, text: string ::
         && 0 <= j < i && log[j] == Answered(log[i].id, PAYMENT_REQUIRED, Some(text))
         && Parse(cfg.isBase64, text) == Ok(ch)
  }

  lemma {:induction false} ChallengeRead(cfg: Config, initial: Cache, log: seq<Fact>, i: nat)
    requires WellFounded(cfg, initial, log) && i < |log| && log[i].Challenged?
    ensures ReadBefore(cfg, log, i, log[i].challenge)
  {
    FactJustified(cfg, initial, log, i);
    hide Parse, WellFounded;
    var f, before := log[i], log[..i];
    var text: string :|
      Answered(f.id, PAYMENT_REQUIRED, Some(text)) in before && Parse(cfg.isBase64, text) == Ok(f.challenge);
    var j :| 0 <= j < i && before[j] == Answered(f.id, PAYMENT_REQUIRED, Some(text));
    ChallengeLaws.ParseSound(cfg.isBase64, text);
  }

  /** In every interleaving, whatever is challenged, issued or paid was read from an answer 402 to that
      request, with a base64 macaroon and an invoice of a known prefix. */
  lemma {:induction false} PaidForRead(cfg: Config, initial: Cache, events: seq<Event>)
    ensures var log := RunEvents(cfg, initial, events).log;
            forall i :: 0 <= i < |log| && (log[i].Challenged? || log[i].Issued? || log[i].Paid?) ==>
              ReadBefore(cfg, log, i, log[i].challenge)
  {
    RunInv(cfg, initial, events);
    var log := RunEvents(cfg, initial, events).log;
    hide RunEvents, Parse, ReadBefore, WellFounded;
    forall i | 0 <= i < |log| && (log[i].Challenged? || log[i].Issued? || log[i].Paid?)
      ensures ReadBefore(cfg, log, i, log[i].challenge)
    {
      if log[i].Challenged? {
        ChallengeRead(cfg, initial, log, i);
      } else {
        var _, c := RecordOfPayment(cfg, initial, log, i);
        ChallengeRead(cfg, initial, log, c);
        ReadLater(cfg, log, c, i, log[i].challenge);
      }
    }
  }

  lemma {:induction false} ReadLater(cfg: Config, log: seq<Fact>, c: nat, i: nat, ch: L402Challenge)
    requires c < i < |log| && log[c].id == log[i].id && ReadBefore(cfg, log, c, ch)
    ensures ReadBefore(cfg, log, i, ch)
  {
    hide Parse;
  }

  // ----- the store's history -----

  /** What a fact says about the store. */
  function OpOf(f: Fact): seq<StoreLaws.Op> {
    match f
    case Stored(_, url, token) => [StoreLaws.OpPut(url, token)]
    case Removed(_, url) => [StoreLaws.OpRemove(url)]
    case _ => []
  }

  function OpsOf(facts: seq<Fact>): seq<StoreLaws.Op> {
    if |facts| == 0 then [] else OpsOf(facts[..|facts| - 1]) + OpOf(facts[|facts| - 1])
  }

  /** The operations of a run on the store: outside removals, and what each step adds to the history. */
  ghost function StoreOps(cfg: Config, initial: Cache, events: seq<Event>): seq<StoreLaws.Op> {
    if |events| == 0 then []
    else
      var before, event := events[..|events| - 1], events[|events| - 1];
      StoreOps(cfg, initial, before)
      + if event.Dropped? then [StoreLaws.OpRemove(event.key)]
        else NewOps(RunEvents(cfg, initial, before).log, RunEvents(cfg, initial, events).log)
  }

  /** Those of the facts by which `log'` is longer than `log`. */
  ghost function NewOps(log: seq<Fact>, log': seq<Fact>): seq<StoreLaws.Op> {
    if |log| <= |log'| then OpsOf(log'[|log|..]) else []
  }

  lemma {:induction false} OpsOfFew(facts: seq<Fact>)
    requires 1 <= |facts| <= 2
    ensures OpsOf(facts) == OpOf(facts[0]) + if |facts| == 2 then OpOf(facts[1]) else []
  {
    if |facts| == 2 {
      OpsOfFew(facts[..1]);
    } else {
      assert facts[..0] == [];
    }
  }

  /** A step does to the store what it logs, and nothing else. */
  lemma {:induction false} ApplyStore(cfg: Config, s: State, id: nat, reply: Reply)
    requires id in s.tasks
    ensures var ops := OpsOf(Logged(cfg, s, id, reply));
            && |ops| <= 1
            && Advance(cfg, s, id, reply).cache == if ops == [] then s.cache else StoreLaws.Apply(s.cache, ops[0])
  {
    hide OnPlain, OnClock, Cache.Put, Cache.Remove, Cache.Get, AfterPlain, Decision, OpsOf;
    var facts := Logged(cfg, s, id, reply);
    if |facts| > 0 {
      FewLogged(cfg, s, id, reply);
      OpsOfFew(facts);
    } else {
      assert OpsOf(facts) == [] by { OpsOfNone(); }
    }
    var pc := s.tasks[id].pc;
    if pc.PlainTry? && reply.HttpReply? {
      PlainStore(cfg, s, id, reply.status, reply.wwwAuthenticate);
    } else if pc.Charging? && reply.ClockReply? {
      ClockStore(cfg, s, id, pc.challenge, reply.now);
    }
  }

  lemma {:induction false} OpsOfNone()
    ensures OpsOf([]) == []
  {
  }

  lemma {:induction false} FewLogged(cfg: Config, s: State, id: nat, reply: Reply)
    requires id in s.tasks
    ensures |Logged(cfg, s, id, reply)| <= 2
  {
    hide AfterPlain, Decision;
  }

  lemma {:induction false} PlainStore(cfg: Config, s: State, id: nat, status: nat, header: Option<string>)
    requires id in s.tasks
    ensures OnPlain(cfg, s, id, status, header).cache == s.cache
    ensures OpOf(AfterPlain(cfg, id, s.tasks[id].url, status, header)) == []
  {
    hide Parse;
  }

  lemma {:induction false} ClockStore(cfg: Config, s: State, id: nat, challenge: L402Challenge, now: nat)
    requires id in s.tasks
    ensures OnClock(cfg, s, id, challenge, now).cache == s.cache
    ensures var (ask, second, _) := Decision(cfg, s, id, challenge, now); OpOf(ask) == OpOf(second) == []
  {
    OnClockIs(cfg, s, id, challenge, now);
    hide OnClock, Judge, Record;
  }

  /** In every interleaving the shared store is the result of one sequential trace of operations,
      those the history tells and those from outside, so the eviction laws apply to it, and it
      never holds more than max(capacity, 1) tokens. */
  lemma {:induction false} StoreIsSequential(cfg: Config, capacity: nat, events: seq<Event>)
    ensures var cache := RunEvents(cfg, NewCache(capacity), events).cache;
            && cache == StoreLaws.Run(capacity, StoreOps(cfg, NewCache(capacity), events))
            && |cache.tokens| <= Max(capacity, 1)
  {
    if |events| > 0 {
      var before, event := events[..|events| - 1], events[|events| - 1];
      StoreIsSequential(cfg, capacity, before);
      var s := RunEvents(cfg, NewCache(capacity), before);
      StoreStep(cfg, capacity, s, StoreOps(cfg, NewCache(capacity), before), event);
      hide Engine.Apply, StoreLaws.Run, NewOps;
    }
    StoreLaws.RunValid(capacity, StoreOps(cfg, NewCache(capacity), events));
    hide RunEvents, StoreOps, StoreLaws.Run;
  }

  lemma {:induction false} StoreStep(cfg: Config, capacity: nat, s: State, ops: seq<StoreLaws.Op>, event: Event)
    requires s.cache == StoreLaws.Run(capacity, ops)
    ensures var s' := Apply(cfg, s, event);
            var more := if event.Dropped? then [StoreLaws.OpRemove(event.key)] else NewOps(s.log, s'.log);
            s'.cache == StoreLaws.Run(capacity, ops + more)
  {
    var s' := Apply(cfg, s, event);
    var more := if event.Dropped? then [StoreLaws.OpRemove(event.key)] else NewOps(s.log, s'.log);
    if event.Step? && event.id in s.tasks {
      AdvanceLogged(cfg, s, event.id, event.reply);
      ApplyStore(cfg, s, event.id, event.reply);
      assert (s.log + Logged(cfg, s, event.id, event.reply))[|s.log|..] == Logged(cfg, s, event.id, event.reply);
    } else if !event.Dropped? {
      assert s'.log[|s.log|..] == [];
      OpsOfNone();
    }
    hide Advance, Logged, OpsOf, Cache.Remove;
    assert |more| <= 1 && s'.cache == if more == [] then s.cache else StoreLaws.Apply(s.cache, more[0]);
    hide Engine.Apply, StoreLaws.Apply, NewOps;
    if more == [] {
      assert ops + more == ops;
    } else {
      assert (ops + more)[..|ops + more| - 1] == ops;
    }
  }
}
