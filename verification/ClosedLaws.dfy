/** The closed system, end to end. */
module ClosedLaws {
  import opened Wrappers
  import opened Text
  import opened TokenStore
  import opened Payment
  import opened Budget
  import opened L402Challenge
  import opened Engine
  import opened MockChallenge
  import opened MockServer
  import opened ClosedSystem
  import ChallengeLaws
  import opened EngineTheorems
  import L402Token
  import Bolt11

  /** What the primitives give: macaroons are base64 (without quotes or colons), hashes are hex
      (without quotes), and every price fits in 64 bits of millisatoshis. */
  ghost predicate Sane(w: World) {
    && (forall h :: '"' !in w.crypto.macaroon(h) && ':' !in w.crypto.macaroon(h))
    && (forall h :: w.cfg.isBase64(w.crypto.macaroon(h)))
    && (forall p :: w.crypto.hash(p).Some? ==> '"' !in w.crypto.hash(p).value)
    && (forall path :: path in w.endpoints ==> w.endpoints[path] * 1000 < U64)
  }

  /** Between requests: only protected urls are cached, and the server redeems every cached token. */
  ghost predicate Honoured(w: World, c: Core) {
    && Valid(c.cache)
    && forall url :: url in c.cache.tokens ==>
         && w.path(url) in w.endpoints
         && ':' !in c.cache.tokens[url].0
         && Redeemable(w.crypto, c.registry, c.cache.tokens[url].0, c.cache.tokens[url].1)
  }

  /** Task `id` is at `pc`, in a system whose lasting part is `c`. */
  ghost predicate At(w: World, sys: Sys, id: nat, r: Req, pc: Pc, c: Core) {
    && id in sys.engine.tasks && sys.engine.tasks[id] == Task(r.url, w.host(r.url), pc)
    && CoreOf(sys) == c
  }

  /** The invoice the server would issue on this request is new. */
  ghost predicate FreshDraw(w: World, registry: Registry, r: Req) {
    Drawn(w, r) && Generate(w.crypto, r.plain, PriceOf(w, r.url)).invoice !in registry
  }

  // ----- the codecs in between -----

  /** A cached or just bought token reaches the server intact. */
  lemma {:induction false} AuthArrives(w: World, registry: Registry, token: Token)
    requires ':' !in token.0
    ensures Validate(w.crypto, registry, AuthOf(token)) == Some(Redeemable(w.crypto, registry, token.0, token.1))
  {
    L402Token.ServerRoundTrip(L402Token.L402Token(token.0, token.1));
  }

  lemma {:induction false} InvoiceShape(amountSats: nat, paymentHash: string)
    requires '"' !in paymentHash
    ensures '"' !in PrintInvoice(amountSats, paymentHash) && "lnbc" <= PrintInvoice(amountSats, paymentHash)
  {
    var safe := SafeHash(paymentHash);
    assert forall i :: 0 <= i < |safe| ==> safe[i] == 'x' || safe[i] == paymentHash[i];
    assert '"' !in safe;
    var micro, nano := Decimal(amountSats / 100), Decimal(Mul64(amountSats, 10));
    assert '"' !in micro && '"' !in nano;
  }

  /** The engine reads the server's challenge, and charges its price. */
  lemma {:induction false} ChallengeArrives(w: World, preimage: string, price: nat)
    requires Sane(w) && w.crypto.hash(preimage).Some? && price * 1000 < U64
    ensures var c := Generate(w.crypto, preimage, price);
            && Parse(w.cfg.isBase64, c.ToWwwAuthenticate()) == Ok(L402Challenge(c.macaroon, c.invoice, None))
            && Bolt11.Charge(w.cfg.dec, c.invoice) == price
            && ':' !in c.macaroon
            && c.ValidateAuth(w.crypto, c.macaroon, c.preimage)
  {
    var c := Generate(w.crypto, preimage, price);
    InvoiceShape(price, c.paymentHash);
    ChallengeLaws.ParseMockHeader(w.cfg.isBase64, c);
    PrintedInvoiceCharge(w.cfg.dec, price, c.paymentHash);
  }

  // ----- tick by tick -----

  lemma {:induction false} LookupTick(w: World, sys: Sys, id: nat, r: Req, c: Core)
    requires Drawn(w, r) && At(w, sys, id, r, Lookup, c)
    ensures var pc := if r.url in c.cache.tokens then CachedTry(c.cache.tokens[r.url]) else PlainTry;
            At(w, Tick(w, sys, id, r), id, r, pc, c)
  {
  }

  lemma {:induction false} CachedTick(w: World, sys: Sys, id: nat, r: Req, c: Core)
    requires Drawn(w, r) && Honoured(w, c) && r.url in c.cache.tokens
    requires At(w, sys, id, r, CachedTry(c.cache.tokens[r.url]), c)
    ensures At(w, Tick(w, sys, id, r), id, r, Done(Unpaid(200, true)), c)
  {
    AuthArrives(w, c.registry, c.cache.tokens[r.url]);
    hide Validate, AuthOf, Redeemable;
  }

  lemma {:induction false} UnprotectedTick(w: World, sys: Sys, id: nat, r: Req, c: Core)
    requires Drawn(w, r) && w.path(r.url) !in w.endpoints && At(w, sys, id, r, PlainTry, c)
    ensures At(w, Tick(w, sys, id, r), id, r, Done(Unpaid(404, false)), c)
  {
  }

  /** The challenge of a request, as the engine holds it. */
  ghost function Offer(w: World, r: Req): L402Challenge
    requires Drawn(w, r)
  {
    var c := Generate(w.crypto, r.plain, PriceOf(w, r.url));
    L402Challenge(c.macaroon, c.invoice, None)
  }

  ghost function WithOffer(w: World, c: Core, r: Req): Core
    requires Drawn(w, r)
  {
    var challenge := Generate(w.crypto, r.plain, PriceOf(w, r.url));
    c.(registry := c.registry[challenge.invoice := challenge])
  }

  lemma {:induction false} ProtectedTick(w: World, sys: Sys, id: nat, r: Req, c: Core)
    requires Sane(w) && Drawn(w, r) && w.path(r.url) in w.endpoints && At(w, sys, id, r, PlainTry, c)
    ensures At(w, Tick(w, sys, id, r), id, r, Charging(Offer(w, r)), WithOffer(w, c, r))
  {
    ChallengeArrives(w, r.plain, PriceOf(w, r.url));
    hide Parse, PendingChallenge.ToWwwAuthenticate, PrintInvoice, Sane, Bolt11.Charge;
  }

  lemma {:induction false} OfferCharge(w: World, r: Req)
    requires Sane(w) && Drawn(w, r) && w.path(r.url) in w.endpoints
    ensures Bolt11.Charge(w.cfg.dec, Offer(w, r).invoice) == PriceOf(w, r.url)
  {
    ChallengeArrives(w, r.plain, PriceOf(w, r.url));
  }

  lemma {:induction false} ChargeTick(w: World, sys: Sys, id: nat, r: Req, c: Core)
    requires Sane(w) && Drawn(w, r) && w.path(r.url) in w.endpoints && At(w, sys, id, r, Charging(Offer(w, r)), c)
    ensures var call := Call(r.now, PriceOf(w, r.url), w.host(r.url));
            match Judge(CODE, w.cfg.budget, c.tracker, call)
            case Exceeded(limit) => At(w, Tick(w, sys, id, r), id, r, Done(Failure(BudgetExceeded(limit))), c)
            case Accepted =>
              At(w, Tick(w, sys, id, r), id, r, Paying(Offer(w, r)), c.(tracker := Record(CODE, c.tracker, call)))
  {
    OfferCharge(w, r);
    hide Bolt11.Charge, Judge, Record, Sane, Offer, PriceOf;
  }

  ghost function PaymentFor(w: World, r: Req): PaymentResult
    requires Drawn(w, r)
  {
    var c := Generate(w.crypto, r.plain, PriceOf(w, r.url));
    PaymentResult(c.preimage, c.paymentHash, c.amountSats, 0)
  }

  lemma {:induction false} PayTick(w: World, sys: Sys, id: nat, r: Req, c: Core)
    requires Drawn(w, r) && At(w, sys, id, r, Paying(Offer(w, r)), c)
    requires c == WithOffer(w, c, r)
    ensures var price := PriceOf(w, r.url);
            At(w, Tick(w, sys, id, r), id, r,
               if c.balance < price then Done(Failure(PaymentFailed)) else Storing(Offer(w, r), PaymentFor(w, r)),
               if c.balance < price then c else c.(balance := c.balance - price))
  {
    var challenge := Generate(w.crypto, r.plain, PriceOf(w, r.url));
    assert c.registry == c.registry[challenge.invoice := challenge];
    assert c.registry[challenge.invoice] == challenge;
    hide PrintInvoice;
  }

  lemma {:induction false} StoreTick(w: World, sys: Sys, id: nat, r: Req, c: Core)
    requires Drawn(w, r) && At(w, sys, id, r, Storing(Offer(w, r), PaymentFor(w, r)), c)
    ensures At(w, Tick(w, sys, id, r), id, r, Retrying(Offer(w, r), PaymentFor(w, r)),
               c.(cache := c.cache.Put(r.url, TokenOf(Offer(w, r), PaymentFor(w, r)))))
  {
    hide Cache.Put, PrintInvoice;
  }

  lemma {:induction false} RetryTick(w: World, sys: Sys, id: nat, r: Req, c: Core)
    requires Sane(w) && Drawn(w, r) && w.path(r.url) in w.endpoints
    requires At(w, sys, id, r, Retrying(Offer(w, r), PaymentFor(w, r)), c) && c == WithOffer(w, c, r)
    ensures var receipt := ReceiptOf(r.url, PaymentFor(w, r), 200);
            At(w, Tick(w, sys, id, r), id, r, Done(Bought(receipt)), c.(receipts := c.receipts + [receipt]))
  {
    OfferRedeemed(w, c, r);
    AuthArrives(w, c.registry, TokenOf(Offer(w, r), PaymentFor(w, r)));
    hide Validate, AuthOf, Redeemable, Generate, PrintInvoice, Sane;
  }

  lemma {:induction false} OfferRedeemed(w: World, c: Core, r: Req)
    requires Sane(w) && Drawn(w, r) && w.path(r.url) in w.endpoints && c == WithOffer(w, c, r)
    ensures var token := TokenOf(Offer(w, r), PaymentFor(w, r));
            ':' !in token.0 && Redeemable(w.crypto, c.registry, token.0, token.1)
  {
    ChallengeArrives(w, r.plain, PriceOf(w, r.url));
    var challenge := Generate(w.crypto, r.plain, PriceOf(w, r.url));
    assert challenge.invoice in c.registry && c.registry[challenge.invoice] == challenge;
  }

  lemma {:induction false} DoneStays(w: World, sys: Sys, id: nat, r: Req, outcome: Outcome, c: Core, n: nat)
    requires Drawn(w, r) && At(w, sys, id, r, Done(outcome), c)
    ensures At(w, Ticks(w, sys, id, r, n), id, r, Done(outcome), c)
    decreases n
  {
    if n > 0 {
      assert Tick(w, sys, id, r) == sys;
      DoneStays(w, sys, id, r, outcome, c, n - 1);
    }
  }

  // ----- a request is one step -----

  /** From a challenge on. */
  lemma {:induction false} BuyRefines(w: World, sys: Sys, id: nat, r: Req, c: Core)
    requires Sane(w) && Drawn(w, r) && w.path(r.url) in w.endpoints && At(w, sys, id, r, PlainTry, c)
    ensures At(w, Ticks(w, sys, id, r, 8), id, r, Done(BuyNow(w, c, r).1), BuyNow(w, c, r).0)
  {
    assert Generate(w.crypto, r.plain, PriceOf(w, r.url)).amountSats == PriceOf(w, r.url);
    var s1 := Tick(w, sys, id, r);
    hide At, Tick, Sane, Judge, Record, Cache.Put, Generate;
    ProtectedTick(w, sys, id, r, c);
    var c1 := WithOffer(w, c, r);
    var s2 := Tick(w, s1, id, r);
    ChargeTick(w, s1, id, r, c1);
    assert Ticks(w, sys, id, r, 8) == Ticks(w, s2, id, r, 6) by { TwoTicks(w, sys, id, r, 6); }
    var call := Call(r.now, PriceOf(w, r.url), w.host(r.url));
    match Judge(CODE, w.cfg.budget, c.tracker, call)
    case Exceeded(limit) => DoneStays(w, s2, id, r, Failure(BudgetExceeded(limit)), c1, 6);
    case Accepted => PayRefines(w, s2, id, r, c, c1.(tracker := Record(CODE, c.tracker, call)));
  }

  lemma {:induction false} TwoTicks(w: World, sys: Sys, id: nat, r: Req, n: nat)
    requires Drawn(w, r) && id in sys.engine.tasks
    ensures Ticks(w, sys, id, r, n + 2) == Ticks(w, Tick(w, Tick(w, sys, id, r), id, r), id, r, n)
  {
    hide Tick;
  }

  /** From the issued payment on; `c` is the core before the request. */
  lemma {:induction false} PayRefines(w: World, sys: Sys, id: nat, r: Req, c: Core, c2: Core)
    requires Sane(w) && Drawn(w, r) && w.path(r.url) in w.endpoints && At(w, sys, id, r, Paying(Offer(w, r)), c2)
    requires var call := Call(r.now, PriceOf(w, r.url), w.host(r.url));
             && Judge(CODE, w.cfg.budget, c.tracker, call).Accepted?
             && c2 == WithOffer(w, c, r).(tracker := Record(CODE, c.tracker, call))
    ensures At(w, Ticks(w, sys, id, r, 6), id, r, Done(BuyNow(w, c, r).1), BuyNow(w, c, r).0)
  {
    var price := PriceOf(w, r.url);
    var s3 := Tick(w, sys, id, r);
    var challenge := Generate(w.crypto, r.plain, price);
    assert c2.registry == c2.registry[challenge.invoice := challenge];
    assert challenge.amountSats == price;
    hide At, Tick, Sane, Judge, Record, Cache.Put, PrintInvoice;
    PayTick(w, sys, id, r, c2);
    if c.balance < price {
      assert Ticks(w, sys, id, r, 6) == Ticks(w, s3, id, r, 5);
      DoneStays(w, s3, id, r, Failure(PaymentFailed), c2, 5);
    } else {
      var c3 := c2.(balance := c2.balance - price);
      var s4 := Tick(w, s3, id, r);
      StoreTick(w, s3, id, r, c3);
      var c4 := c3.(cache := c3.cache.Put(r.url, TokenOf(Offer(w, r), PaymentFor(w, r))));
      var s5 := Tick(w, s4, id, r);
      RetryTick(w, s4, id, r, c4);
      var receipt := ReceiptOf(r.url, PaymentFor(w, r), 200);
      DoneStays(w, s5, id, r, Bought(receipt), c4.(receipts := c4.receipts + [receipt]), 3);
      assert Ticks(w, sys, id, r, 6) == Ticks(w, s5, id, r, 3) by {
        TwoTicks(w, s3, id, r, 3);
      }
    }
  }

  /** The nine-step run of a request through engine, server and backend is the one-step request. */
  lemma {:induction false} RequestRefines(w: World, sys: Sys, id: nat, r: Req, c: Core)
    requires Sane(w) && Drawn(w, r) && Honoured(w, c) && id !in sys.engine.tasks && CoreOf(sys) == c
    ensures At(w, Request(w, sys, id, r), id, r, Done(RequestCore(w, c, r).1), RequestCore(w, c, r).0)
    ensures Request(w, sys, id, r).engine.tasks.Keys == sys.engine.tasks.Keys + {id}
  {
    var started := sys.(engine := Apply(w.cfg, sys.engine, Spawn(id, r.url, w.host(r.url))));
    assert At(w, started, id, r, Lookup, c);
    TicksKeys(w, started, id, r, 9);
    assert Request(w, sys, id, r) == Ticks(w, started, id, r, 9);
    hide Tick, Ticks, Sane, RequestCore, Apply, At, Honoured, Request;
    FromLookup(w, started, id, r, c);
  }

  lemma {:induction false} FromLookup(w: World, sys: Sys, id: nat, r: Req, c: Core)
    requires Sane(w) && Drawn(w, r) && Honoured(w, c) && At(w, sys, id, r, Lookup, c)
    ensures At(w, Ticks(w, sys, id, r, 9), id, r, Done(RequestCore(w, c, r).1), RequestCore(w, c, r).0)
  {
    var s1 := Tick(w, sys, id, r);
    var s2 := Tick(w, s1, id, r);
    assert id in sys.engine.tasks;
    TwoTicks(w, sys, id, r, 7);
    assert Ticks(w, sys, id, r, 9) == Ticks(w, s1, id, r, 8);
    hide Tick, Ticks, Sane, BuyNow, Apply, At, Honoured;
    LookupTick(w, sys, id, r, c);
    if r.url in c.cache.tokens {
      CachedTick(w, s1, id, r, c);
      assert w.path(r.url) in w.endpoints by { CachedProtected(w, c, r.url); }
      DoneStays(w, s2, id, r, Unpaid(200, true), c, 7);
    } else if w.path(r.url) !in w.endpoints {
      UnprotectedTick(w, s1, id, r, c);
      DoneStays(w, s2, id, r, Unpaid(404, false), c, 7);
    } else {
      BuyRefines(w, s1, id, r, c);
    }
  }

  lemma {:induction false} CachedProtected(w: World, c: Core, url: string)
    requires Honoured(w, c) && url in c.cache.tokens
    ensures w.path(url) in w.endpoints
  {
  }

  lemma {:induction false} TicksKeys(w: World, sys: Sys, id: nat, r: Req, n: nat)
    requires Drawn(w, r) && id in sys.engine.tasks
    ensures Ticks(w, sys, id, r, n).engine.tasks.Keys == sys.engine.tasks.Keys
    decreases n
  {
    if n > 0 {
      var (reply, _) := Answer(w, sys, id, r);
      AdvanceRank(w.cfg, sys.engine, id, reply, id);
      TicksKeys(w, Tick(w, sys, id, r), id, r, n - 1);
      hide Advance, Answer;
    }
  }
}
