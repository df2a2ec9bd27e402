/** What every move of the concurrent closed system keeps. */
module ConcurrentLaws {
  import opened Wrappers
  import opened TokenStore
  import opened Payment
  import opened Budget
  import opened L402Challenge
  import opened Engine
  import opened MockChallenge
  import opened MockServer
  import opened ClosedSystem
  import opened ClosedLaws
  import opened ClosedTheorems
  import opened ConcurrentSystem
  import Bolt11

  // ----- the invariant -----

  /** Every entry is a challenge as the server prints it. */
  ghost predicate RegistryOk(w: World, registry: Registry) {
    forall k :: k in registry ==>
      var c := registry[k];
      && c.invoice == k && w.crypto.hash(c.preimage).Some? && c.amountSats * 1000 < U64
      && c == Generate(w.crypto, c.preimage, c.amountSats)
  }

  /** The server accepts the token for the url. */
  ghost predicate Good(w: World, registry: Registry, url: string, token: Token) {
    && w.path(url) in w.endpoints && ':' !in token.0
    && Redeemable(w.crypto, registry, token.0, token.1)
  }

  /** The challenge is the server's, at the url's price. */
  ghost predicate Offered(w: World, registry: Registry, url: string, ch: L402Challenge) {
    && w.path(url) in w.endpoints && ch.invoice in registry
    && registry[ch.invoice].amountSats == PriceOf(w, url)
    && ch == L402Challenge(registry[ch.invoice].macaroon, ch.invoice, None)
  }

  /** The payment is the backend's for that challenge. */
  ghost predicate Settled(w: World, registry: Registry, url: string, ch: L402Challenge, p: PaymentResult) {
    && Offered(w, registry, url, ch)
    && var c := registry[ch.invoice]; p == PaymentResult(c.preimage, c.paymentHash, c.amountSats, 0)
  }

  /** The server's first answer. */
  ghost predicate FirstAnswer(w: World, registry: Registry, url: string, reply: Reply) {
    if w.path(url) in w.endpoints then
      exists k :: k in registry && registry[k].amountSats == PriceOf(w, url)
        && reply == HttpReply(402, Some(registry[k].ToWwwAuthenticate()))
    else reply == HttpReply(404, None)
  }

  /** A request and the answer on its way to it. No request ever drops or revokes a token. */
  ghost predicate TaskOk(w: World, registry: Registry, t: Task, reply: Option<Reply>) {
    t.host == w.host(t.url) &&
    match t.pc
    case Lookup => reply.None? || reply.value == StoreReply(true)
    case CachedTry(token) => Good(w, registry, t.url, token) && (reply.None? || reply.value == HttpReply(200, None))
    case DropRejected => false
    case PlainTry => reply.None? || FirstAnswer(w, registry, t.url, reply.value)
    case Charging(ch) => Offered(w, registry, t.url, ch) && (reply.None? || reply.value.ClockReply?)
    case Paying(ch) =>
      && Offered(w, registry, t.url, ch)
      && (reply.None? || reply.value == PayError
          || (reply.value.PayReply? && Settled(w, registry, t.url, ch, reply.value.payment)))
    case Storing(ch, p) => Settled(w, registry, t.url, ch, p) && (reply.None? || reply.value == StoreReply(true))
    case Retrying(ch, p) => Settled(w, registry, t.url, ch, p) && (reply.None? || reply.value == HttpReply(200, None))
    case Revoking(_, _) => false
    case Done(outcome) => reply.None? && Expected(outcome)
  }

  function ReplyTo(s: Net, id: nat): Option<Reply> {
    if id in s.inflight then Some(s.inflight[id]) else None
  }

  ghost predicate CacheOk(w: World, registry: Registry, cache: Cache) {
    forall url :: url in cache.tokens ==> Good(w, registry, url, cache.tokens[url])
  }

  ghost predicate Sound(w: World, s: Net) {
    && RegistryOk(w, s.registry) && CacheOk(w, s.registry, s.engine.cache)
    && s.inflight.Keys <= s.engine.tasks.Keys
    && forall id :: id in s.engine.tasks ==> TaskOk(w, s.registry, s.engine.tasks[id], ReplyTo(s, id))
  }

  // ----- the registry only grows -----

  ghost predicate Grows(registry: Registry, registry': Registry) {
    forall k :: k in registry ==> k in registry' && registry'[k] == registry[k]
  }

  lemma {:induction false} GoodGrows(w: World, registry: Registry, registry': Registry, url: string, token: Token)
    requires Good(w, registry, url, token) && Grows(registry, registry')
    ensures Good(w, registry', url, token)
  {
    var k :| k in registry && registry[k].ValidateAuth(w.crypto, token.0, token.1);
    assert k in registry' && registry'[k] == registry[k];
  }

  lemma {:induction false} TaskGrows(w: World, registry: Registry, registry': Registry, t: Task, reply: Option<Reply>)
    requires TaskOk(w, registry, t, reply) && Grows(registry, registry')
    ensures TaskOk(w, registry', t, reply)
  {
    if t.pc.CachedTry? {
      GoodGrows(w, registry, registry', t.url, t.pc.token);
    }
    if t.pc.PlainTry? && reply.Some? {
      FirstGrows(w, registry, registry', t.url, reply.value);
    }
    hide Good, FirstAnswer, Expected;
  }

  lemma {:induction false} FirstGrows(w: World, registry: Registry, registry': Registry, url: string, reply: Reply)
    requires FirstAnswer(w, registry, url, reply) && Grows(registry, registry')
    ensures FirstAnswer(w, registry', url, reply)
  {
    if w.path(url) in w.endpoints {
      var k :| k in registry && registry[k].amountSats == PriceOf(w, url)
        && reply == HttpReply(402, Some(registry[k].ToWwwAuthenticate()));
      assert k in registry' && registry'[k] == registry[k];
    }
  }

  /** A paid challenge makes a good token. */
  lemma {:induction false} SettledGood(w: World, registry: Registry, url: string, ch: L402Challenge, p: PaymentResult)
    requires Sane(w) && RegistryOk(w, registry) && Settled(w, registry, url, ch, p)
    ensures Good(w, registry, url, TokenOf(ch, p))
  {
    var c := registry[ch.invoice];
    ChallengeArrives(w, c.preimage, c.amountSats);
    hide Parse, PendingChallenge.ToWwwAuthenticate, Bolt11.Charge, Sane, Generate;
  }

  // ----- an answer is computed -----

  lemma {:induction false} ServeGood(w: World, sys: Sys, url: string, token: Token, preimage: string)
    requires Good(w, sys.registry, url, token) && w.crypto.hash(preimage).Some?
    ensures Serve(w, sys, url, Some(AuthOf(token)), preimage) == (HttpReply(200, None), sys)
  {
    AuthArrives(w, sys.registry, token);
    hide Validate, AuthOf, Redeemable, Generate;
  }

  lemma {:induction false} ServeFirst(w: World, sys: Sys, url: string, preimage: string)
    requires Sane(w) && RegistryOk(w, sys.registry) && w.crypto.hash(preimage).Some?
    requires Generate(w.crypto, preimage, PriceOf(w, url)).invoice !in sys.registry
    ensures var (reply, sys') := Serve(w, sys, url, None, preimage);
            && Grows(sys.registry, sys'.registry) && RegistryOk(w, sys'.registry)
            && FirstAnswer(w, sys'.registry, url, reply)
            && sys' == sys.(registry := sys'.registry)
  {
    hide PrintInvoice, PendingChallenge.ToWwwAuthenticate;
    if w.path(url) in w.endpoints {
      var c := Generate(w.crypto, preimage, PriceOf(w, url));
      var registry' := sys.registry[c.invoice := c];
      assert c.invoice in registry' && registry'[c.invoice] == c;
      hide Generate;
    }
  }

  /** The answer suits the request that awaits it. */
  lemma {:induction false} AnswerOk(w: World, sys: Sys, id: nat, r: Req)
    requires Sane(w) && RegistryOk(w, sys.registry) && Drawn(w, r) && id in sys.engine.tasks
    requires TaskOk(w, sys.registry, sys.engine.tasks[id], None) && !sys.engine.tasks[id].pc.Done?
    requires sys.engine.tasks[id].pc.PlainTry? ==>
               Generate(w.crypto, r.plain, PriceOf(w, sys.engine.tasks[id].url)).invoice !in sys.registry
    ensures var (reply, sys') := Answer(w, sys, id, r);
            && Grows(sys.registry, sys'.registry) && RegistryOk(w, sys'.registry)
            && TaskOk(w, sys'.registry, sys.engine.tasks[id], Some(reply))
  {
    hide Sane, Serve, Generate, FirstAnswer, RegistryOk, Good;
    var t := sys.engine.tasks[id];
    match t.pc
    case CachedTry(token) => ServeGood(w, sys, t.url, token, r.cached);
    case PlainTry => ServeFirst(w, sys, t.url, r.plain);
    case Retrying(ch, p) =>
      SettledGood(w, sys.registry, t.url, ch, p);
      ServeGood(w, sys, t.url, TokenOf(ch, p), r.retry);
    case _ =>
  }

  lemma {:induction false} WorkKeeps(w: World, s: Net, m: Move)
    requires Sane(w) && Sound(w, s) && m.Work? && FreshMove(w, s, m)
    ensures Sound(w, Moved(w, s, m)) && Grows(s.registry, Moved(w, s, m).registry)
  {
    var s' := Moved(w, s, m);
    if Awaits(s, m.id) && w.crypto.hash(m.preimage).Some? {
      var r := Req("", m.now, m.preimage, m.preimage, m.preimage);
      assert ReplyTo(s, m.id) == None;
      hide Sane, TaskOk, Generate, RegistryOk, Good;
      AnswerOk(w, Sys(s.engine, s.registry, s.balance), m.id, r);
      assert s' == Worked(w, s, m.id, m.now, m.preimage);
      forall url | url in s.engine.cache.tokens
        ensures Good(w, s'.registry, url, s.engine.cache.tokens[url])
      {
        GoodGrows(w, s.registry, s'.registry, url, s.engine.cache.tokens[url]);
      }
      forall id | id in s.engine.tasks ensures TaskOk(w, s'.registry, s.engine.tasks[id], ReplyTo(s', id)) {
        if id != m.id {
          TaskGrows(w, s.registry, s'.registry, s.engine.tasks[id], ReplyTo(s, id));
        }
      }
      hide Answer;
    }
  }

  // ----- an answer is delivered -----

  /** The request has moved on, awaiting a new answer. */
  ghost predicate Delivered(w: World, registry: Registry, before: State, after: State, id: nat)
    requires id in before.tasks
  {
    && after.tasks.Keys == before.tasks.Keys
    && TaskOk(w, registry, after.tasks[id], None) && after.tasks[id].url == before.tasks[id].url
    && (forall other :: other in before.tasks && other != id ==> after.tasks[other] == before.tasks[other])
    && CacheOk(w, registry, after.cache)
  }

  lemma {:induction false} FirstParsed(w: World, registry: Registry, url: string, reply: Reply)
    returns (text: string, ch: L402Challenge)
    requires Sane(w) && RegistryOk(w, registry) && FirstAnswer(w, registry, url, reply) && w.path(url) in w.endpoints
    ensures reply == HttpReply(402, Some(text)) && Parse(w.cfg.isBase64, text) == Ok(ch)
    ensures Offered(w, registry, url, ch)
  {
    var k :| k in registry && registry[k].amountSats == PriceOf(w, url)
      && reply == HttpReply(402, Some(registry[k].ToWwwAuthenticate()));
    var c := registry[k];
    ChallengeArrives(w, c.preimage, c.amountSats);
    text, ch := c.ToWwwAuthenticate(), L402Challenge(c.macaroon, c.invoice, None);
    hide Parse, Generate, PendingChallenge.ToWwwAuthenticate, Sane, Bolt11.Charge;
  }

  /** A step that only moves its request on. */
  lemma {:induction false} GoneOn(w: World, registry: Registry, s: State, id: nat, pc: Pc, facts: seq<Fact>)
    requires CacheOk(w, registry, s.cache) && id in s.tasks && TaskOk(w, registry, s.tasks[id].(pc := pc), None)
    ensures Delivered(w, registry, s, s.Goto(id, pc, facts), id)
  {
    hide TaskOk, CacheOk;
  }

  /** Where the first answer takes a request: to its challenge, or back with a 404. */
  lemma {:induction false} FirstOk(w: World, registry: Registry, t: Task, reply: Reply)
    requires Sane(w) && RegistryOk(w, registry) && t.pc.PlainTry? && TaskOk(w, registry, t, Some(reply))
    ensures reply.HttpReply? && reply.status in {402, 404}
    ensures reply.status == 404 ==> TaskOk(w, registry, t.(pc := Done(Unpaid(404, false))), None)
    ensures reply.status == 402 ==>
      && reply.wwwAuthenticate.Some? && Parse(w.cfg.isBase64, reply.wwwAuthenticate.value).Ok?
      && TaskOk(w, registry, t.(pc := Charging(Parse(w.cfg.isBase64, reply.wwwAuthenticate.value).value)), None)
  {
    hide Sane, RegistryOk, FirstAnswer, Offered, Parse, Good, Settled;
    if w.path(t.url) in w.endpoints {
      var _, _ := FirstParsed(w, registry, t.url, reply);
    } else {
      NotProtected(w, registry, t.url, reply);
    }
  }

  lemma {:induction false} FirstDelivered(w: World, registry: Registry, s: State, id: nat, reply: Reply)
    requires Sane(w) && RegistryOk(w, registry) && CacheOk(w, registry, s.cache) && id in s.tasks
    requires s.tasks[id].pc.PlainTry? && TaskOk(w, registry, s.tasks[id], Some(reply))
    ensures Delivered(w, registry, s, Advance(w.cfg, s, id, reply), id)
  {
    hide Sane, CacheOk, RegistryOk, Delivered, Parse, Advance, TaskOk;
    var t := s.tasks[id];
    FirstOk(w, registry, t, reply);
    var after := s.Note(Answered(id, reply.status, reply.wwwAuthenticate));
    FirstStep(w, s, id, reply);
    DeliveredAlike(w, registry, s, after, Advance(w.cfg, s, id, reply), id);
    if reply.status == 402 {
      var ch := Parse(w.cfg.isBase64, reply.wwwAuthenticate.value).value;
      GoneOn(w, registry, after, id, Charging(ch), [Challenged(id, t.url, ch)]);
    } else {
      GoneOn(w, registry, after, id, Done(Unpaid(404, false)), [Returned(id, Unpaid(404, false))]);
    }
  }

  lemma {:induction false} NotProtected(w: World, registry: Registry, url: string, reply: Reply)
    requires FirstAnswer(w, registry, url, reply) && w.path(url) !in w.endpoints
    ensures reply == HttpReply(404, None)
  {
  }

  lemma {:induction false} FirstStep(w: World, s: State, id: nat, reply: Reply)
    requires id in s.tasks && s.tasks[id].pc.PlainTry? && reply.HttpReply?
    ensures var after := s.Note(Answered(id, reply.status, reply.wwwAuthenticate));
            Advance(w.cfg, s, id, reply) ==
              if reply.status != 402 then after.Return(id, Unpaid(reply.status, false))
              else match reply.wwwAuthenticate
                case None => after.Return(id, Failure(MissingChallenge))
                case Some(text) =>
                  match Parse(w.cfg.isBase64, text)
                  case Err(reason) => after.Return(id, Failure(BadChallenge(reason)))
                  case Ok(ch) => after.Goto(id, Charging(ch), [Challenged(id, s.tasks[id].url, ch)])
  {
    hide Parse;
  }

  /** Only the requests before the step matter. */
  lemma {:induction false} DeliveredAlike(w: World, registry: Registry, s: State, s': State, after: State, id: nat)
    requires id in s.tasks && s.tasks == s'.tasks
    ensures Delivered(w, registry, s', after, id) <==> Delivered(w, registry, s, after, id)
  {
    hide TaskOk, CacheOk;
  }

  lemma {:induction false} ClockDelivered(w: World, registry: Registry, s: State, id: nat, now: nat)
    requires CacheOk(w, registry, s.cache) && id in s.tasks
    requires s.tasks[id].pc.Charging? && TaskOk(w, registry, s.tasks[id], Some(ClockReply(now)))
    ensures Delivered(w, registry, s, OnClock(w.cfg, s, id, s.tasks[id].pc.challenge, now), id)
  {
    hide Judge, Record, ChargeCall, CacheOk, Offered;
  }

  lemma {:induction false} StoreDelivered(w: World, registry: Registry, s: State, id: nat)
    requires Sane(w) && RegistryOk(w, registry) && CacheOk(w, registry, s.cache) && id in s.tasks
    requires s.tasks[id].pc.Storing? && TaskOk(w, registry, s.tasks[id], Some(StoreReply(true)))
    ensures Delivered(w, registry, s, Advance(w.cfg, s, id, StoreReply(true)), id)
  {
    var t := s.tasks[id];
    var ch, p := t.pc.challenge, t.pc.payment;
    var token := TokenOf(ch, p);
    SettledGood(w, registry, t.url, ch, p);
    PutTokens(s.cache, t.url, token);
    hide Sane, RegistryOk, Good, Settled, Cache.Put, Advance;
    var after := s.(cache := s.cache.Put(t.url, token)).Note(Stored(id, t.url, token));
    var f := Sent(id, t.url, Some(token));
    assert CacheOk(w, registry, after.cache);
    assert TaskOk(w, registry, t.(pc := Retrying(ch, p)), None);
    StoreStep(w, s, id);
    hide TaskOk, CacheOk;
    GoneOn(w, registry, after, id, Retrying(ch, p), [f]);
  }

  lemma {:induction false} StoreStep(w: World, s: State, id: nat)
    requires id in s.tasks && s.tasks[id].pc.Storing?
    ensures var t := s.tasks[id];
            var ch, p := t.pc.challenge, t.pc.payment;
            Advance(w.cfg, s, id, StoreReply(true)) ==
              s.(cache := s.cache.Put(t.url, TokenOf(ch, p))).Note(Stored(id, t.url, TokenOf(ch, p)))
               .Goto(id, Retrying(ch, p), [Sent(id, t.url, Some(TokenOf(ch, p)))])
  {
    hide Cache.Put;
  }

  lemma {:induction false} LookupDelivered(w: World, registry: Registry, s: State, id: nat)
    requires CacheOk(w, registry, s.cache) && id in s.tasks
    requires s.tasks[id].pc.Lookup? && TaskOk(w, registry, s.tasks[id], None)
    ensures Delivered(w, registry, s, Advance(w.cfg, s, id, StoreReply(true)), id)
  {
    hide Good, OnClock, OnPlain, Cache.Put, Cache.Remove;
  }

  lemma {:induction false} OtherDelivered(w: World, registry: Registry, s: State, id: nat, reply: Reply)
    requires CacheOk(w, registry, s.cache) && id in s.tasks && TaskOk(w, registry, s.tasks[id], Some(reply))
    requires s.tasks[id].pc.CachedTry? || s.tasks[id].pc.Paying? || s.tasks[id].pc.Retrying?
    ensures Delivered(w, registry, s, Advance(w.cfg, s, id, reply), id)
  {
    hide CacheOk, OnClock, OnPlain, Cache.Put, Cache.Remove, Cache.Get, Settled, Offered, Good;
  }

  lemma {:induction false} StepKeeps(w: World, registry: Registry, s: State, id: nat, reply: Reply)
    requires Sane(w) && RegistryOk(w, registry) && CacheOk(w, registry, s.cache) && id in s.tasks
    requires TaskOk(w, registry, s.tasks[id], Some(reply))
    ensures Delivered(w, registry, s, Advance(w.cfg, s, id, reply), id)
  {
    hide Sane, RegistryOk, CacheOk, OnPlain, OnClock, Delivered, Good, Settled, Offered, FirstAnswer, Expected;
    match s.tasks[id].pc
    case Lookup => LookupDelivered(w, registry, s, id);
    case PlainTry => FirstDelivered(w, registry, s, id, reply);
    case Charging(ch) => ClockDelivered(w, registry, s, id, reply.now);
    case Storing(_, _) => StoreDelivered(w, registry, s, id);
    case _ => OtherDelivered(w, registry, s, id, reply);
  }

  lemma {:induction false} DeliverKeeps(w: World, s: Net, id: nat)
    requires Sane(w) && Sound(w, s)
    ensures Sound(w, Moved(w, s, Deliver(id)))
  {
    if id in s.inflight {
      var s' := Moved(w, s, Deliver(id));
      hide Sane, TaskOk, RegistryOk, CacheOk, Advance;
      assert ReplyTo(s, id) == Some(s.inflight[id]);
      StepKeeps(w, s.registry, s.engine, id, s.inflight[id]);
      forall other | other in s'.engine.tasks
        ensures TaskOk(w, s'.registry, s'.engine.tasks[other], ReplyTo(s', other))
      {
        if other != id {
          assert ReplyTo(s', other) == ReplyTo(s, other);
        }
      }
    }
  }

  /** Every move keeps the system sound, whatever is in flight. */
  lemma {:induction false} MoveKeeps(w: World, s: Net, m: Move)
    requires Sane(w) && Sound(w, s) && FreshMove(w, s, m)
    ensures Sound(w, Moved(w, s, m)) && Grows(s.registry, Moved(w, s, m).registry)
  {
    match m
    case Arrive(id, url) =>
      hide RegistryOk, CacheOk, Sane;
      assert id !in s.engine.tasks ==> ReplyTo(s, id) == None;
      assert TaskOk(w, s.registry, Task(url, w.host(url), Lookup), None);
      hide TaskOk;
    case Work(_, _, _) =>
      WorkKeeps(w, s, m);
    case Deliver(id) =>
      DeliverKeeps(w, s, id);
      hide Sound, Apply, Sane;
  }

  lemma {:induction false} PlaySound(w: World, capacity: nat, balance: nat, moves: seq<Move>)
    requires Sane(w) && FreshPlay(w, capacity, balance, moves)
    ensures Sound(w, Play(w, capacity, balance, moves))
  {
    if |moves| > 0 {
      PlaySound(w, capacity, balance, moves[..|moves| - 1]);
      MoveKeeps(w, Play(w, capacity, balance, moves[..|moves| - 1]), moves[|moves| - 1]);
      hide Sane, Sound, Moved, FreshMove;
    }
  }
}
