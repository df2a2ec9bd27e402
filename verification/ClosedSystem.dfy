/** Engine, mock server and mock backend wired together: nothing is left to an environment but the
    clock, the random draws and the primitives. Requests are made one after the other. */
module ClosedSystem {
  import opened Wrappers
  import opened TokenStore
  import opened Payment
  import opened Budget
  import opened Engine
  import opened MockChallenge
  import opened MockServer
  import L402Token

  /** The world a client runs in; `path` and `host` are the parts of a url. */
  datatype World = World(
    cfg: Config, crypto: Crypto, endpoints: map<string, nat>,
    path: string -> string, host: string -> Option<string>)

  datatype Sys = Sys(engine: State, registry: Registry, balance: nat)

  /** A request, with the clock reading and the random draws (one per send) it will meet. */
  datatype Req = Req(url: string, now: nat, cached: string, plain: string, retry: string)

  predicate Drawn(w: World, r: Req) {
    && w.crypto.hash(r.cached).Some? && w.crypto.hash(r.plain).Some? && w.crypto.hash(r.retry).Some?
  }

  function AuthOf(token: Token): string {
    L402Token.L402Token(token.0, token.1).ToHeaderValue()
  }

  /** The server's reply to a send of the request, and the registry after it. */
  function Serve(w: World, sys: Sys, url: string, auth: Option<string>, preimage: string): (Reply, Sys)
    requires w.crypto.hash(preimage).Some?
  {
    var (response, registry) := Handle(w.crypto, w.endpoints, sys.registry, w.path(url), auth, preimage);
    (HttpReply(response.status, response.wwwAuthenticate), sys.(registry := registry))
  }

  /** What the rest of the system answers to what task `id` awaits. */
  function Answer(w: World, sys: Sys, id: nat, r: Req): (Reply, Sys)
    requires Drawn(w, r) && id in sys.engine.tasks
  {
    var url := sys.engine.tasks[id].url;
    match sys.engine.tasks[id].pc
    case CachedTry(token) => Serve(w, sys, url, Some(AuthOf(token)), r.cached)
    case PlainTry => Serve(w, sys, url, None, r.plain)
    case Charging(_) => (ClockReply(r.now), sys)
    case Paying(challenge) =>
      var (payment, balance) := Pay(sys.registry, sys.balance, challenge.invoice);
      (if payment.Some? then PayReply(payment.value) else PayError, sys.(balance := balance))
    case Retrying(challenge, payment) => Serve(w, sys, url, Some(AuthOf(TokenOf(challenge, payment))), r.retry)
    case _ => (StoreReply(true), sys)
  }

  function Tick(w: World, sys: Sys, id: nat, r: Req): (sys': Sys)
    requires Drawn(w, r) && id in sys.engine.tasks
    ensures id in sys'.engine.tasks
  {
    var (reply, after) := Answer(w, sys, id, r);
    after.(engine := Apply(w.cfg, sys.engine, Step(id, reply)))
  }

  function Ticks(w: World, sys: Sys, id: nat, r: Req, n: nat): (sys': Sys)
    requires Drawn(w, r) && id in sys.engine.tasks
    ensures id in sys'.engine.tasks
    decreases n
  {
    if n == 0 then sys else Ticks(w, Tick(w, sys, id, r), id, r, n - 1)
  }

  /** A whole request: at most nine steps. */
  function Request(w: World, sys: Sys, id: nat, r: Req): (sys': Sys)
    requires Drawn(w, r)
    ensures id in sys'.engine.tasks
  {
    var started := sys.(engine := Apply(w.cfg, sys.engine, Spawn(id, r.url, w.host(r.url))));
    Ticks(w, started, id, r, 9)
  }

  function OutcomeOf(sys: Sys, id: nat): Option<Outcome> {
    if id in sys.engine.tasks && sys.engine.tasks[id].pc.Done? then Some(sys.engine.tasks[id].pc.outcome) else None
  }

  function Start(capacity: nat, balance: nat): Sys {
    Sys(Initial(NewCache(capacity)), map[], balance)
  }

  /** Request number k is task k; each runs to its end before the next. */
  function Session(w: World, sys: Sys, reqs: seq<Req>): (Sys, seq<Option<Outcome>>)
    requires forall r :: r in reqs ==> Drawn(w, r)
  {
    if |reqs| == 0 then (sys, [])
    else
      var (before, outcomes) := Session(w, sys, reqs[..|reqs| - 1]);
      var after := Request(w, before, |reqs| - 1, reqs[|reqs| - 1]);
      (after, outcomes + [OutcomeOf(after, |reqs| - 1)])
  }

  // ----- the same in one step per request -----

  /** What of the system outlives a request. */
  datatype Core = Core(cache: Cache, tracker: Tracker, receipts: seq<Receipt>, registry: Registry, balance: nat)

  function CoreOf(sys: Sys): Core {
    Core(sys.engine.cache, sys.engine.tracker, sys.engine.receipts, sys.registry, sys.balance)
  }

  function PriceOf(w: World, url: string): nat {
    if w.path(url) in w.endpoints then w.endpoints[w.path(url)] else 0
  }

  /** A request to a protected url without a cached token. */
  function BuyNow(w: World, c: Core, r: Req): (Core, Outcome)
    requires Drawn(w, r)
  {
    var challenge := Generate(w.crypto, r.plain, PriceOf(w, r.url));
    var call := Call(r.now, challenge.amountSats, w.host(r.url));
    var issued := c.(registry := c.registry[challenge.invoice := challenge]);
    match Judge(CODE, w.cfg.budget, c.tracker, call)
    case Exceeded(limit) => (issued, Failure(BudgetExceeded(limit)))
    case Accepted =>
      var recorded := issued.(tracker := Record(CODE, c.tracker, call));
      if c.balance < challenge.amountSats then (recorded, Failure(PaymentFailed))
      else
        var payment := PaymentResult(challenge.preimage, challenge.paymentHash, challenge.amountSats, 0);
        var receipt := ReceiptOf(r.url, payment, 200);
        (recorded.(balance := c.balance - challenge.amountSats, receipts := c.receipts + [receipt],
                   cache := c.cache.Put(r.url, (challenge.macaroon, challenge.preimage))),
         Bought(receipt))
  }

  function RequestCore(w: World, c: Core, r: Req): (Core, Outcome)
    requires Drawn(w, r)
  {
    if w.path(r.url) !in w.endpoints then (c, Unpaid(404, false))
    else if r.url in c.cache.tokens then (c, Unpaid(200, true))
    else BuyNow(w, c, r)
  }

  function SessionCore(w: World, c: Core, reqs: seq<Req>): (Core, seq<Outcome>)
    requires forall r :: r in reqs ==> Drawn(w, r)
  {
    if |reqs| == 0 then (c, [])
    else
      var (before, outcomes) := SessionCore(w, c, reqs[..|reqs| - 1]);
      var (after, outcome) := RequestCore(w, before, reqs[|reqs| - 1]);
      (after, outcomes + [outcome])
  }
}
