/** Whole sessions of the closed system. */
module ClosedTheorems {
  import opened Wrappers
  import opened TokenStore
  import opened Budget
  import opened Engine
  import opened MockChallenge
  import opened MockServer
  import opened ClosedSystem
  import opened ClosedLaws
  import EngineTheorems
  import BudgetLaws
  import StoreLaws
  import EvictionLaws

  ghost predicate AllDrawn(w: World, reqs: seq<Req>) {
    forall r :: r in reqs ==> Drawn(w, r)
  }

  ghost function InvoiceOf(w: World, r: Req): string
    requires Drawn(w, r)
  {
    Generate(w.crypto, r.plain, PriceOf(w, r.url)).invoice
  }

  /** The random draws give distinct invoices. */
  ghost predicate Distinct(w: World, reqs: seq<Req>)
    requires AllDrawn(w, reqs)
  {
    forall i, j :: 0 <= i < j < |reqs| ==> InvoiceOf(w, reqs[i]) != InvoiceOf(w, reqs[j])
  }

  ghost function Opening(capacity: nat, balance: nat): Core {
    CoreOf(Start(capacity, balance))
  }

  // ----- every cached token is honoured, after every request -----

  lemma {:induction false} RedeemableGrows(crypto: Crypto, registry: Registry, invoice: string, c: PendingChallenge,
                                           macaroon: string, preimage: string)
    requires Redeemable(crypto, registry, macaroon, preimage) && invoice !in registry
    ensures Redeemable(crypto, registry[invoice := c], macaroon, preimage)
  {
    var k :| k in registry && registry[k].ValidateAuth(crypto, macaroon, preimage);
    assert k in registry[invoice := c] && registry[invoice := c][k] == registry[k];
  }

  lemma {:induction false} IssueKeepsHonoured(w: World, c: Core, r: Req)
    requires Honoured(w, c) && FreshDraw(w, c.registry, r)
    ensures Honoured(w, WithOffer(w, c, r))
  {
    var challenge := Generate(w.crypto, r.plain, PriceOf(w, r.url));
    forall url | url in c.cache.tokens
      ensures Redeemable(w.crypto, WithOffer(w, c, r).registry, c.cache.tokens[url].0, c.cache.tokens[url].1)
    {
      RedeemableGrows(w.crypto, c.registry, challenge.invoice, challenge, c.cache.tokens[url].0, c.cache.tokens[url].1);
    }
  }

  /** The pair a purchase puts into the store. */
  ghost function TokenFor(w: World, r: Req): Token
    requires Drawn(w, r)
  {
    var challenge := Generate(w.crypto, r.plain, PriceOf(w, r.url));
    (challenge.macaroon, challenge.preimage)
  }

  /** What a request does to the store and the registry. */
  lemma {:induction false} RequestShape(w: World, c: Core, r: Req)
    requires Drawn(w, r)
    ensures var (c', o) := RequestCore(w, c, r);
            && (o.Bought? ==> w.path(r.url) in w.endpoints && r.url !in c.cache.tokens)
            && c'.cache == (if o.Bought? then c.cache.Put(r.url, TokenFor(w, r)) else c.cache)
            && c'.registry == (if w.path(r.url) in w.endpoints && r.url !in c.cache.tokens
                               then WithOffer(w, c, r).registry else c.registry)
  {
    hide Judge, Record, Cache.Put, PrintInvoice;
  }

  lemma {:induction false} PutHonoured(w: World, c: Core, url: string, token: Token)
    requires Honoured(w, c) && w.path(url) in w.endpoints
    requires ':' !in token.0 && Redeemable(w.crypto, c.registry, token.0, token.1)
    ensures Honoured(w, c.(cache := c.cache.Put(url, token)))
  {
    hide Redeemable, Valid, Cache.Put;
    StoreLaws.PutValid(c.cache, url, token);
    PutTokens(c.cache, url, token);
  }

  /** A put adds its pair and keeps some of the others. */
  lemma {:induction false} PutTokens(cache: Cache, url: string, token: Token)
    ensures forall u :: u in cache.Put(url, token).tokens ==>
              if u == url then cache.Put(url, token).tokens[u] == token
              else u in cache.tokens && cache.Put(url, token).tokens[u] == cache.tokens[u]
  {
  }

  lemma {:induction false} HonouredAlike(w: World, c: Core, c': Core)
    requires Honoured(w, c) && c'.cache == c.cache && c'.registry == c.registry
    ensures Honoured(w, c')
  {
  }

  lemma {:induction false} HonouredKeeps(w: World, c: Core, r: Req)
    requires Sane(w) && Honoured(w, c) && FreshDraw(w, c.registry, r)
    ensures Honoured(w, RequestCore(w, c, r).0)
  {
    RequestShape(w, c, r);
    hide Honoured, RequestCore, Sane, Cache.Put, Redeemable;
    var (c', o) := RequestCore(w, c, r);
    if w.path(r.url) in w.endpoints && r.url !in c.cache.tokens {
      var c1 := WithOffer(w, c, r);
      IssueKeepsHonoured(w, c, r);
      if o.Bought? {
        OfferTwice(w, c, r);
        OfferRedeemed(w, c1, r);
        PutHonoured(w, c1, r.url, TokenFor(w, r));
        HonouredAlike(w, c1.(cache := c1.cache.Put(r.url, TokenFor(w, r))), c');
      } else {
        HonouredAlike(w, c1, c');
      }
    } else {
      HonouredAlike(w, c, c');
    }
  }

  lemma {:induction false} OfferTwice(w: World, c: Core, r: Req)
    requires Drawn(w, r)
    ensures WithOffer(w, WithOffer(w, c, r), r) == WithOffer(w, c, r)
    ensures TokenFor(w, r) == TokenOf(Offer(w, r), PaymentFor(w, r))
  {
    var challenge := Generate(w.crypto, r.plain, PriceOf(w, r.url));
    var registry := c.registry[challenge.invoice := challenge];
    assert registry == registry[challenge.invoice := challenge];
    hide PrintInvoice;
  }

  lemma {:induction false} RegistryOf(w: World, c: Core, reqs: seq<Req>)
    requires AllDrawn(w, reqs) && c.registry == map[]
    ensures forall k :: k in SessionCore(w, c, reqs).0.registry ==>
              exists i :: 0 <= i < |reqs| && InvoiceOf(w, reqs[i]) == k
  {
    if |reqs| > 0 {
      hide Judge, Record, Cache.Put, PrintInvoice;
      var before := reqs[..|reqs| - 1];
      RegistryOf(w, c, before);
      forall k | k in SessionCore(w, c, reqs).0.registry
        ensures exists i :: 0 <= i < |reqs| && InvoiceOf(w, reqs[i]) == k
      {
        if k in SessionCore(w, c, before).0.registry {
          var i :| 0 <= i < |before| && InvoiceOf(w, before[i]) == k;
          assert InvoiceOf(w, reqs[i]) == k;
        } else {
          assert InvoiceOf(w, reqs[|reqs| - 1]) == k;
        }
      }
    }
  }

  /** The hypothesis on a session. */
  ghost predicate Playable(w: World, reqs: seq<Req>) {
    Sane(w) && AllDrawn(w, reqs) && Distinct(w, reqs)
  }

  lemma {:induction false} PrefixPlayable(w: World, capacity: nat, balance: nat, reqs: seq<Req>)
    requires Playable(w, reqs) && |reqs| > 0
    ensures Playable(w, reqs[..|reqs| - 1])
    ensures FreshDraw(w, SessionCore(w, Opening(capacity, balance), reqs[..|reqs| - 1]).0.registry, reqs[|reqs| - 1])
  {
    var before := reqs[..|reqs| - 1];
    assert forall i :: 0 <= i < |before| ==> before[i] == reqs[i];
    RegistryOf(w, Opening(capacity, balance), before);
    hide Generate, SessionCore, Sane;
    assert forall i :: 0 <= i < |before| ==> InvoiceOf(w, before[i]) != InvoiceOf(w, reqs[|reqs| - 1]);
  }

  lemma {:induction false} SessionHonoured(w: World, capacity: nat, balance: nat, reqs: seq<Req>)
    requires Playable(w, reqs)
    ensures Honoured(w, SessionCore(w, Opening(capacity, balance), reqs).0)
  {
    if |reqs| > 0 {
      PrefixPlayable(w, capacity, balance, reqs);
      SessionHonoured(w, capacity, balance, reqs[..|reqs| - 1]);
      HonouredKeeps(w, SessionCore(w, Opening(capacity, balance), reqs[..|reqs| - 1]).0, reqs[|reqs| - 1]);
    }
  }

  // ----- the session refines its one-step form -----

  ghost predicate Matches(outcomes: seq<Option<Outcome>>, plain: seq<Outcome>) {
    |outcomes| == |plain| && forall i :: 0 <= i < |plain| ==> outcomes[i] == Some(plain[i])
  }

  /** Whole system and core after some requests. */
  ghost predicate Refined(sys: Sys, outcomes: seq<Option<Outcome>>, core: Core, plain: seq<Outcome>, n: nat) {
    && CoreOf(sys) == core && |plain| == n && Matches(outcomes, plain)
    && forall id :: id in sys.engine.tasks ==> id < n
  }

  lemma {:induction false} SessionRefines(w: World, capacity: nat, balance: nat, reqs: seq<Req>)
    requires Playable(w, reqs)
    ensures var (sys, outcomes) := Session(w, Start(capacity, balance), reqs);
            var (core, plain) := SessionCore(w, Opening(capacity, balance), reqs);
            Refined(sys, outcomes, core, plain, |reqs|)
  {
    if |reqs| > 0 {
      var before, r := reqs[..|reqs| - 1], reqs[|reqs| - 1];
      PrefixPlayable(w, capacity, balance, reqs);
      SessionRefines(w, capacity, balance, before);
      SessionHonoured(w, capacity, balance, before);
      var (sys, outcomes) := Session(w, Start(capacity, balance), before);
      var (core, plain) := SessionCore(w, Opening(capacity, balance), before);
      RefinedPush(w, sys, outcomes, core, plain, |before|, r);
      hide Refined, Request, RequestCore, Honoured, Playable, FreshDraw, OutcomeOf;
    }
  }

  lemma {:induction false} RefinedPush(w: World, sys: Sys, outcomes: seq<Option<Outcome>>, core: Core,
                                       plain: seq<Outcome>, n: nat, r: Req)
    requires Sane(w) && Drawn(w, r) && Honoured(w, core) && Refined(sys, outcomes, core, plain, n)
    ensures var after := Request(w, sys, n, r);
            var (core', o) := RequestCore(w, core, r);
            Refined(after, outcomes + [OutcomeOf(after, n)], core', plain + [o], n + 1)
  {
    hide Request, RequestCore, Honoured, Sane;
    RequestRefines(w, sys, n, r, core);
  }

  // ----- the accounts -----

  /** The outcomes a request can have; in particular never RetryFailed. */
  predicate Expected(o: Outcome) {
    match o
    case Unpaid(status, cached) => status == if cached then 200 else 404
    case Bought(receipt) => receipt.responseStatus == 200
    case Failure(error) => error.BudgetExceeded? || error.PaymentFailed?
  }

  /** Prices of the requests whose record was kept although the payment failed. */
  ghost function FailedSum(w: World, reqs: seq<Req>, outcomes: seq<Outcome>): nat
    requires |reqs| == |outcomes|
  {
    if |reqs| == 0 then 0
    else
      var n := |reqs| - 1;
      FailedSum(w, reqs[..n], outcomes[..n])
      + if outcomes[n] == Failure(PaymentFailed) then PriceOf(w, reqs[n].url) else 0
  }

  /** What the requested urls cost together. */
  ghost function PriceSum(w: World, reqs: seq<Req>): nat {
    if |reqs| == 0 then 0 else PriceSum(w, reqs[..|reqs| - 1]) + PriceOf(w, reqs[|reqs| - 1].url)
  }

  /** The receipts among the outcomes. */
  ghost function BoughtIn(outcomes: seq<Outcome>): seq<Receipt> {
    if |outcomes| == 0 then []
    else
      var n := |outcomes| - 1;
      BoughtIn(outcomes[..n]) + if outcomes[n].Bought? then [outcomes[n].receipt] else []
  }

  /** What one request does to the accounts. */
  lemma {:induction false} RequestAccounts(w: World, c: Core, r: Req)
    requires Drawn(w, r)
    ensures var (c', o) := RequestCore(w, c, r);
            var price := PriceOf(w, r.url);
            && Expected(o)
            && c'.receipts == c.receipts + (if o.Bought? then [o.receipt] else [])
            && (o.Bought? ==> o.receipt.amountSats == price && o.receipt.endpoint == r.url)
            && c.balance == c'.balance + (if o.Bought? then price else 0)
            && c'.tracker.total == (if o.Bought? || o == Failure(PaymentFailed) then Add64(c.tracker.total, price)
                                    else c.tracker.total)
  {
    hide Judge, Cache.Put, PrintInvoice, Bump, Add64;
    assert c.receipts + [] == c.receipts;
  }

  /** The accounts of some requests. */
  ghost predicate Balanced(w: World, balance: nat, reqs: seq<Req>, c: Core, outcomes: seq<Outcome>) {
    && |outcomes| == |reqs|
    && (forall i :: 0 <= i < |outcomes| ==> Expected(outcomes[i]))
    && c.receipts == BoughtIn(outcomes)
    && balance == c.balance + EngineTheorems.ReceiptSum(c.receipts)
    && c.tracker.total == Wrap64(EngineTheorems.ReceiptSum(c.receipts) + FailedSum(w, reqs, outcomes))
  }

  lemma {:induction false} SessionAccounts(w: World, capacity: nat, balance: nat, reqs: seq<Req>)
    requires AllDrawn(w, reqs)
    ensures var (c, outcomes) := SessionCore(w, Opening(capacity, balance), reqs);
            Balanced(w, balance, reqs, c, outcomes)
  {
    if |reqs| > 0 {
      var before, r := reqs[..|reqs| - 1], reqs[|reqs| - 1];
      SessionAccounts(w, capacity, balance, before);
      var (c, outcomes) := SessionCore(w, Opening(capacity, balance), before);
      BalancedPush(w, balance, before, c, outcomes, r);
      assert before + [r] == reqs;
      hide RequestCore, Balanced;
    }
  }

  lemma {:induction false} BalancedPush(w: World, balance: nat, reqs: seq<Req>, c: Core, outcomes: seq<Outcome>, r: Req)
    requires Drawn(w, r) && Balanced(w, balance, reqs, c, outcomes)
    ensures var (c', o) := RequestCore(w, c, r);
            Balanced(w, balance, reqs + [r], c', outcomes + [o])
  {
    hide RequestCore, PriceOf, Add64, Wrap64, FailedSum, BoughtIn, EngineTheorems.ReceiptSum, Expected;
    RequestAccounts(w, c, r);
    var (c', o) := RequestCore(w, c, r);
    var price, sum := PriceOf(w, r.url), EngineTheorems.ReceiptSum(c.receipts) + FailedSum(w, reqs, outcomes);
    OutcomesPush(w, reqs, outcomes, r, o);
    WrapSum(sum, price);
    if o.Bought? {
      ReceiptPush(c.receipts, o.receipt);
    } else {
      assert c.receipts + [] == c.receipts;
    }
  }

  lemma {:induction false} WrapSum(a: nat, b: nat)
    ensures Add64(Wrap64(a), b) == Wrap64(a + b)
  {
    BudgetLaws.PlusKept(CODE, a, b);
  }

  lemma {:induction false} OutcomesPush(w: World, reqs: seq<Req>, outcomes: seq<Outcome>, r: Req, o: Outcome)
    requires |reqs| == |outcomes|
    ensures BoughtIn(outcomes + [o]) == BoughtIn(outcomes) + if o.Bought? then [o.receipt] else []
    ensures FailedSum(w, reqs + [r], outcomes + [o])
         == FailedSum(w, reqs, outcomes) + if o == Failure(PaymentFailed) then PriceOf(w, r.url) else 0
  {
    assert (reqs + [r])[..|reqs|] == reqs && (outcomes + [o])[..|outcomes|] == outcomes;
    hide PriceOf;
  }

  lemma {:induction false} ReceiptPush(receipts: seq<Receipt>, receipt: Receipt)
    ensures EngineTheorems.ReceiptSum(receipts + [receipt]) == EngineTheorems.ReceiptSum(receipts) + receipt.amountSats
  {
    assert (receipts + [receipt])[..|receipts|] == receipts;
  }

  /** The accounts of a finished session. */
  ghost predicate Settles(w: World, balance: nat, reqs: seq<Req>, sys: Sys, outcomes: seq<Outcome>) {
    && |outcomes| == |reqs|
    && (forall i :: 0 <= i < |outcomes| ==> Expected(outcomes[i]))
    && sys.engine.receipts == BoughtIn(outcomes)
    && balance == sys.balance + EngineTheorems.ReceiptSum(sys.engine.receipts)
    && sys.engine.tracker.total
       == Wrap64(EngineTheorems.ReceiptSum(sys.engine.receipts) + FailedSum(w, reqs, outcomes))
  }

  /** The server accepts the cached token of a url. */
  ghost predicate Honours(w: World, sys: Sys, url: string)
    requires url in sys.engine.cache.tokens
  {
    && w.path(url) in w.endpoints
    && Validate(w.crypto, sys.registry, AuthOf(sys.engine.cache.tokens[url])) == Some(true)
  }

  /** Any session of sequential requests with distinct invoices: no request fails otherwise than on
      the budget or for want of balance (so never with RetryFailed); the wallet lost exactly what
      the receipts say; and the total spent is that plus the records whose payment failed, modulo
      2^64. */
  lemma {:induction false} ClosedSession(w: World, capacity: nat, balance: nat, reqs: seq<Req>)
    requires Playable(w, reqs)
    ensures var (sys, outcomes) := Session(w, Start(capacity, balance), reqs);
            exists plain: seq<Outcome> :: Matches(outcomes, plain) && Settles(w, balance, reqs, sys, plain)
  {
    hide *;
    SessionRefines(w, capacity, balance, reqs);
    DrawnOf(w, reqs);
    SessionAccounts(w, capacity, balance, reqs);
    var (sys, outcomes) := Session(w, Start(capacity, balance), reqs);
    var (core, plain) := SessionCore(w, Opening(capacity, balance), reqs);
    RefinedSettles(w, balance, reqs, sys, outcomes, core, plain);
    assert Matches(outcomes, plain) && Settles(w, balance, reqs, sys, plain);
  }

  lemma {:induction false} DrawnOf(w: World, reqs: seq<Req>)
    requires Playable(w, reqs)
    ensures AllDrawn(w, reqs) && forall r :: r in reqs ==> Drawn(w, r)
  {
  }

  lemma {:induction false} RefinedSettles(w: World, balance: nat, reqs: seq<Req>, sys: Sys,
                                          outcomes: seq<Option<Outcome>>, core: Core, plain: seq<Outcome>)
    requires Refined(sys, outcomes, core, plain, |reqs|) && Balanced(w, balance, reqs, core, plain)
    ensures Matches(outcomes, plain) && Settles(w, balance, reqs, sys, plain)
  {
    hide FailedSum, Expected, Matches, BoughtIn, Wrap64;
  }

  /** After any such session, whatever the prices sum to, every cached token is answered 200. */
  lemma {:induction false} SessionHonours(w: World, capacity: nat, balance: nat, reqs: seq<Req>)
    requires Playable(w, reqs)
    ensures var (sys, _) := Session(w, Start(capacity, balance), reqs);
            forall url :: url in sys.engine.cache.tokens ==> Honours(w, sys, url)
  {
    SessionRefines(w, capacity, balance, reqs);
    SessionHonoured(w, capacity, balance, reqs);
    hide Session, SessionCore, Validate, Playable;
    var (sys, _) := Session(w, Start(capacity, balance), reqs);
    forall url | url in sys.engine.cache.tokens ensures Honours(w, sys, url) {
      AuthArrives(w, sys.registry, sys.engine.cache.tokens[url]);
    }
  }

  // ----- paying once -----

  /** How often a url was paid for. */
  ghost function Purchases(reqs: seq<Req>, outcomes: seq<Outcome>, url: string): nat
    requires |reqs| == |outcomes|
  {
    if |reqs| == 0 then 0
    else
      var n := |reqs| - 1;
      Purchases(reqs[..n], outcomes[..n], url) + if outcomes[n].Bought? && reqs[n].url == url then 1 else 0
  }

  ghost function ProtectedUrls(w: World, reqs: seq<Req>): set<string> {
    set r | r in reqs && w.path(r.url) in w.endpoints :: r.url
  }

  lemma {:induction false} PutFits(cache: Cache, url: string, token: Token, urls: set<string>)
    requires Valid(cache) && cache.tokens.Keys <= urls && url in urls && url !in cache.tokens
    requires |urls| <= cache.Room()
    ensures cache.Put(url, token).tokens.Keys == cache.tokens.Keys + {url}
  {
    StoreLaws.SubsetSize(cache.tokens.Keys + {url}, urls);
    assert |cache.tokens.Keys + {url}| == |cache.tokens| + 1;
    assert cache.Evict(url) == cache;
  }

  /** With room for every protected url requested, the cache holds exactly the urls bought, each
      bought once. */
  lemma {:induction false} OnceCore(w: World, capacity: nat, balance: nat, reqs: seq<Req>, all: set<string>)
    requires Playable(w, reqs) && ProtectedUrls(w, reqs) <= all && |all| <= Max(capacity, 1)
    ensures var (c, outcomes) := SessionCore(w, Opening(capacity, balance), reqs);
            && |outcomes| == |reqs| && c.cache.capacity == capacity && c.cache.tokens.Keys <= all
            && forall url :: Purchases(reqs, outcomes, url) == if url in c.cache.tokens then 1 else 0
  {
    if |reqs| > 0 {
      var before, r := reqs[..|reqs| - 1], reqs[|reqs| - 1];
      PrefixPlayable(w, capacity, balance, reqs);
      OnceCore(w, capacity, balance, before, all);
      SessionHonoured(w, capacity, balance, before);
      var (c, outcomes) := SessionCore(w, Opening(capacity, balance), before);
      var (c', o) := RequestCore(w, c, r);
      OnceStep(w, c, r, all);
      hide RequestCore, Honoured, Playable;
      assert (outcomes + [o])[..|outcomes|] == outcomes;
    }
  }

  lemma {:induction false} OnceStep(w: World, c: Core, r: Req, all: set<string>)
    requires Drawn(w, r) && Honoured(w, c) && c.cache.tokens.Keys <= all && |all| <= c.cache.Room()
    requires w.path(r.url) in w.endpoints ==> r.url in all
    ensures var (c', o) := RequestCore(w, c, r);
            && c'.cache.capacity == c.cache.capacity
            && c'.cache.tokens.Keys == c.cache.tokens.Keys + (if o.Bought? then {r.url} else {})
            && (o.Bought? ==> r.url !in c.cache.tokens)
  {
    RequestShape(w, c, r);
    hide RequestCore, Redeemable, Cache.Put, Valid, TokenFor;
    var (c', o) := RequestCore(w, c, r);
    if o.Bought? {
      PutFits(c.cache, r.url, TokenFor(w, r), all);
      PutCapacity(c.cache, r.url, TokenFor(w, r));
    }
  }

  lemma {:induction false} PutCapacity(cache: Cache, url: string, token: Token)
    ensures cache.Put(url, token).capacity == cache.capacity
  {
  }

  /** With store capacity for the distinct protected urls, each is paid for at most once. */
  lemma {:induction false} PaidAtMostOnce(w: World, capacity: nat, balance: nat, reqs: seq<Req>, url: string)
    requires Playable(w, reqs) && |ProtectedUrls(w, reqs)| <= Max(capacity, 1)
    ensures var (_, outcomes) := Session(w, Start(capacity, balance), reqs);
            exists plain: seq<Outcome> ::
              |plain| == |reqs| && Matches(outcomes, plain) && Purchases(reqs, plain, url) <= 1
  {
    SessionRefines(w, capacity, balance, reqs);
    OnceCore(w, capacity, balance, reqs, ProtectedUrls(w, reqs));
  }

  /** The puts of a session that buys at every request. */
  ghost function Puts(w: World, reqs: seq<Req>): seq<StoreLaws.Op>
    requires AllDrawn(w, reqs)
  {
    seq(|reqs|, i requires 0 <= i < |reqs| => StoreLaws.OpPut(reqs[i].url, TokenFor(w, reqs[i])))
  }

  /** A tour of distinct protected urls, with an unlimited budget and the means to pay. */
  ghost predicate Tour(w: World, balance: nat, reqs: seq<Req>) {
    && AllDrawn(w, reqs) && w.cfg.budget == Unlimited() && PriceSum(w, reqs) <= balance
    && (forall i :: 0 <= i < |reqs| ==> w.path(reqs[i].url) in w.endpoints)
    && (forall i, j :: 0 <= i < j < |reqs| ==> reqs[i].url != reqs[j].url)
  }

  lemma {:induction false} UnlimitedBuys(w: World, c: Core, r: Req)
    requires Drawn(w, r) && w.cfg.budget == Unlimited() && w.path(r.url) in w.endpoints
    requires r.url !in c.cache.tokens && PriceOf(w, r.url) <= c.balance
    ensures var (c', o) := RequestCore(w, c, r);
            && o.Bought? && c'.cache == c.cache.Put(r.url, TokenFor(w, r))
            && c'.balance == c.balance - PriceOf(w, r.url)
  {
    hide Record, Cache.Put, PrintInvoice;
  }

  lemma {:induction false} NotPutNotStored(capacity: nat, ops: seq<StoreLaws.Op>, key: string)
    requires forall i :: 0 <= i < |ops| && ops[i].OpPut? ==> ops[i].key != key
    ensures key !in StoreLaws.Run(capacity, ops).tokens
  {
    EvictionLaws.PresenceExactly(capacity, ops, key);
  }

  /** A tour buys at every stop; the store is what the puts make it. */
  ghost predicate Toured(w: World, capacity: nat, balance: nat, reqs: seq<Req>, c: Core, outcomes: seq<Outcome>)
    requires AllDrawn(w, reqs) && PriceSum(w, reqs) <= balance
  {
    && c.cache == StoreLaws.Run(capacity, Puts(w, reqs))
    && c.balance == balance - PriceSum(w, reqs)
    && |outcomes| == |reqs| && forall i :: 0 <= i < |reqs| ==> outcomes[i].Bought?
  }

  lemma {:induction false} TourBuys(w: World, capacity: nat, balance: nat, reqs: seq<Req>)
    requires Tour(w, balance, reqs)
    ensures var (c, outcomes) := SessionCore(w, Opening(capacity, balance), reqs);
            Toured(w, capacity, balance, reqs, c, outcomes)
  {
    if |reqs| > 0 {
      var before := reqs[..|reqs| - 1];
      TourPrefix(w, capacity, balance, reqs);
      TourBuys(w, capacity, balance, before);
      var (c, outcomes) := SessionCore(w, Opening(capacity, balance), before);
      TouredPush(w, capacity, balance, reqs, c, outcomes);
      hide RequestCore, Toured, Puts;
    }
  }

  lemma {:induction false} TouredPush(w: World, capacity: nat, balance: nat, reqs: seq<Req>, c: Core,
      outcomes: seq<Outcome>)
    requires Tour(w, balance, reqs) && |reqs| > 0 && Tour(w, balance, reqs[..|reqs| - 1])
    requires Toured(w, capacity, balance, reqs[..|reqs| - 1], c, outcomes)
    ensures var (c', o) := RequestCore(w, c, reqs[|reqs| - 1]);
            Toured(w, capacity, balance, reqs, c', outcomes + [o])
  {
    hide RequestCore, Cache.Put, TokenFor, Puts, Tour, StoreLaws.Run, PriceOf, PriceSum;
    var before, r := reqs[..|reqs| - 1], reqs[|reqs| - 1];
    TourPrefix(w, capacity, balance, reqs);
    PutsPush(w, capacity, reqs);
    UnlimitedBuys(w, c, r);
    var o := RequestCore(w, c, r).1;
    forall i | 0 <= i < |reqs| ensures (outcomes + [o])[i].Bought? {
    }
  }

  lemma {:induction false} TourPrefix(w: World, capacity: nat, balance: nat, reqs: seq<Req>)
    requires Tour(w, balance, reqs) && |reqs| > 0
    ensures Tour(w, balance, reqs[..|reqs| - 1]) && AllDrawn(w, reqs) && w.cfg.budget == Unlimited()
    ensures w.path(reqs[|reqs| - 1].url) in w.endpoints
    ensures reqs[|reqs| - 1].url !in StoreLaws.Run(capacity, Puts(w, reqs[..|reqs| - 1])).tokens
    ensures PriceSum(w, reqs) == PriceSum(w, reqs[..|reqs| - 1]) + PriceOf(w, reqs[|reqs| - 1].url) <= balance
  {
    var before := reqs[..|reqs| - 1];
    assert forall i :: 0 <= i < |before| ==> before[i] == reqs[i];
    hide TokenFor;
    NotPutNotStored(capacity, Puts(w, before), reqs[|reqs| - 1].url);
  }

  lemma {:induction false} PutsPush(w: World, capacity: nat, reqs: seq<Req>)
    requires AllDrawn(w, reqs) && |reqs| > 0
    ensures var r := reqs[|reqs| - 1];
            StoreLaws.Run(capacity, Puts(w, reqs))
            == StoreLaws.Run(capacity, Puts(w, reqs[..|reqs| - 1])).Put(r.url, TokenFor(w, r))
  {
    assert Puts(w, reqs)[..|reqs| - 1] == Puts(w, reqs[..|reqs| - 1]);
    hide Cache.Put, TokenFor;
  }

  /** Distinct keys are as many as the puts. */
  lemma {:induction false} DistinctPutKeys(ops: seq<StoreLaws.Op>)
    requires forall i :: 0 <= i < |ops| ==> ops[i].OpPut?
    requires forall i, j :: 0 <= i < j < |ops| ==> ops[i].key != ops[j].key
    ensures |EvictionLaws.PutKeys(ops)| == |ops|
  {
    if |ops| > 0 {
      var before := ops[..|ops| - 1];
      DistinctPutKeys(before);
      EvictionLaws.PutKeysPush(ops);
      assert ops[|ops| - 1].key !in EvictionLaws.PutKeys(before);
    } else {
      assert EvictionLaws.PutKeys(ops) == {};
    }
  }

  /** The room is exactly what paying once needs: a tour of more distinct urls than the store holds
      pays a second time when it comes back to its first. */
  lemma {:induction false} PaidAgainWithoutRoom(w: World, capacity: nat, balance: nat, reqs: seq<Req>, again: Req)
    requires Playable(w, reqs + [again]) && Tour(w, balance, reqs) && |reqs| > Max(capacity, 1)
    requires again.url == reqs[0].url && PriceSum(w, reqs + [again]) <= balance
    ensures var (_, outcomes) := Session(w, Start(capacity, balance), reqs + [again]);
            && |outcomes| == |reqs| + 1
            && outcomes[0].Some? && outcomes[0].value.Bought?
            && outcomes[|reqs|].Some? && outcomes[|reqs|].value.Bought?
  {
    assert again in reqs + [again];
    PaidAgainCore(w, capacity, balance, reqs, again);
    SessionRefines(w, capacity, balance, reqs + [again]);
    hide Session, SessionCore, Tour;
  }

  lemma {:induction false} PaidAgainCore(w: World, capacity: nat, balance: nat, reqs: seq<Req>, again: Req)
    requires Tour(w, balance, reqs) && |reqs| > Max(capacity, 1)
    requires Drawn(w, again) && again.url == reqs[0].url && PriceSum(w, reqs + [again]) <= balance
    ensures var (_, outcomes) := SessionCore(w, Opening(capacity, balance), reqs + [again]);
            |outcomes| == |reqs| + 1 && outcomes[0].Bought? && outcomes[|reqs|].Bought?
  {
    var all, ops := reqs + [again], Puts(w, reqs);
    assert all[..|reqs|] == reqs;
    TourBuys(w, capacity, balance, reqs);
    FirstIsEvicted(w, capacity, reqs);
    var (c, outcomes) := SessionCore(w, Opening(capacity, balance), reqs);
    UnlimitedBuys(w, c, again);
    hide RequestCore, Puts;
  }

  lemma {:induction false} FirstIsEvicted(w: World, capacity: nat, reqs: seq<Req>)
    requires AllDrawn(w, reqs) && |reqs| > Max(capacity, 1)
    requires forall i, j :: 0 <= i < j < |reqs| ==> reqs[i].url != reqs[j].url
    ensures reqs[0].url !in StoreLaws.Run(capacity, Puts(w, reqs)).tokens
  {
    hide TokenFor;
    var ops, key := Puts(w, reqs), reqs[0].url;
    DistinctPutKeys(ops[1..]);
    EvictionLaws.PutGetPresence(capacity, ops, key);
    hide EvictionLaws.PutKeys;
    forall i: nat | EvictionLaws.LastPut(ops, i, key) ensures i == 0 {
      assert ops[i].key == reqs[i].url;
    }
    assert ops[0 + 1..] == ops[1..];
  }
}
