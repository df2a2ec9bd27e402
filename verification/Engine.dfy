/** The payment engine: `L402Client::request`, run by any number of tasks over one store, one
    tracker and one list of receipts. Every `.await` is a point where another task may run, so a
    request is a program counter that moves one step at a time on a reply of its environment. */
module Engine {
  import opened Wrappers
  import opened TokenStore
  import opened Payment
  import opened Budget
  import opened L402Challenge
  import Bolt11

  /** The client's configuration and the primitives outside the model. */
  datatype Config = Config(
    maxFeeSats: nat, budget: Budget, isBase64: string -> bool, dec: Bolt11.DecimalReader)

  datatype Receipt = Receipt(
    endpoint: string, amountSats: nat, feeSats: nat, paymentHash: string, preimage: string, responseStatus: nat)

  datatype ClientError =
    | StoreFailed
    | HttpFailed
    | MissingChallenge
    | BadChallenge(reason: ChallengeError)
    | BudgetExceeded(limit: Limit)
    | PaymentFailed
    | RetryFailed

  datatype Outcome =
    | Failure(error: ClientError)
    | Unpaid(status: nat, cachedToken: bool)
    | Bought(receipt: Receipt)

  /** What a request awaits next. */
  datatype Pc =
    | Lookup
    | CachedTry(token: Token)
    | DropRejected
    | PlainTry
    | Charging(challenge: L402Challenge)
    | Paying(challenge: L402Challenge)
    | Storing(challenge: L402Challenge, payment: PaymentResult)
    | Retrying(challenge: L402Challenge, payment: PaymentResult)
    | Revoking(challenge: L402Challenge, payment: PaymentResult)
    | Done(outcome: Outcome)

  /** `host` is the domain parsed from the url, if it parses. */
  datatype Task = Task(url: string, host: Option<string>, pc: Pc)

  /** What the environment answers: the store may fail, the server and the backend are arbitrary. */
  datatype Reply =
    | StoreReply(ok: bool)
    | HttpReply(status: nat, wwwAuthenticate: Option<string>)
    | HttpError
    | ClockReply(now: nat)
    | PayReply(payment: PaymentResult)
    | PayError

  /** `Dropped` is a removal from outside the engine: another holder of the store, or an expiry. */
  datatype Event =
    | Spawn(id: nat, url: string, host: Option<string>)
    | Step(id: nat, reply: Reply)
    | Dropped(key: string)

  /** The ghost history: what has happened, in order. */
  datatype Fact =
    | Sent(id: nat, url: string, auth: Option<Token>)
    | Answered(id: nat, status: nat, header: Option<string>)
    | Challenged(id: nat, url: string, challenge: L402Challenge)
    | Asked(id: nat, call: Call, verdict: Verdict)
    | Issued(id: nat, url: string, challenge: L402Challenge)
    | Paid(id: nat, url: string, challenge: L402Challenge, payment: PaymentResult)
    | Refused(id: nat)
    | Stored(id: nat, url: string, token: Token)
    | Removed(id: nat, url: string)
    | Returned(id: nat, outcome: Outcome)

  datatype State = State(
    tasks: map<nat, Task>, cache: Cache, tracker: Tracker, receipts: seq<Receipt>, log: seq<Fact>)
  {
    /** Task `id` moves on, having done `facts`. */
    function Goto(id: nat, pc: Pc, facts: seq<Fact>): State
      requires id in tasks
    {
      this.(tasks := tasks[id := tasks[id].(pc := pc)], log := log + facts)
    }

    /** Nothing but a fact is added. */
    function Note(f: Fact): State {
      this.(log := log + [f])
    }

    function Return(id: nat, outcome: Outcome): State
      requires id in tasks
    {
      Goto(id, Done(outcome), [Returned(id, outcome)])
    }
  }

  function Initial(cache: Cache): State {
    State(map[], cache, FRESH, [], [])
  }

  const PAYMENT_REQUIRED := 402

  function TokenOf(challenge: L402Challenge, payment: PaymentResult): Token {
    (challenge.macaroon, payment.preimage)
  }

  function ReceiptOf(url: string, p: PaymentResult, status: nat): Receipt {
    Receipt(url, p.amountSats, p.feeSats, p.paymentHash, p.preimage, status)
  }

  function ChargeCall(cfg: Config, task: Task, challenge: L402Challenge, now: nat): Call {
    Call(now, Bolt11.Charge(cfg.dec, challenge.invoice), task.host)
  }

  /** The plain response: no payment needed, or a challenge to read. */
  function OnPlain(cfg: Config, s: State, id: nat, status: nat, header: Option<string>): State
    requires id in s.tasks
  {
    var s' := s.Note(Answered(id, status, header));
    if status != PAYMENT_REQUIRED then s'.Return(id, Unpaid(status, false))
    else match header
      case None => s'.Return(id, Failure(MissingChallenge))
      case Some(text) =>
        match Parse(cfg.isBase64, text)
        case Err(reason) => s'.Return(id, Failure(BadChallenge(reason)))
        case Ok(challenge) => s'.Goto(id, Charging(challenge), [Challenged(id, s.tasks[id].url, challenge)])
  }

  /** The budget decision; the payment is issued in the same breath. */
  function OnClock(cfg: Config, s: State, id: nat, challenge: L402Challenge, now: nat): State
    requires id in s.tasks
  {
    var task := s.tasks[id];
    var call := ChargeCall(cfg, task, challenge, now);
    match Judge(CODE, cfg.budget, s.tracker, call)
    case Exceeded(limit) =>
      s.Goto(id, Done(Failure(BudgetExceeded(limit))),
             [Asked(id, call, Exceeded(limit)), Returned(id, Failure(BudgetExceeded(limit)))])
    case Accepted =>
      s.Goto(id, Paying(challenge), [Asked(id, call, Accepted), Issued(id, task.url, challenge)])
       .(tracker := Record(CODE, s.tracker, call))
  }

  /** One step of task `id`; a reply it does not await changes nothing. */
  function Advance(cfg: Config, s: State, id: nat, reply: Reply): State
    requires id in s.tasks
  {
    var task := s.tasks[id];
    match (task.pc, reply)
    case (Lookup, StoreReply(ok)) =>
      if !ok then s.Return(id, Failure(StoreFailed))
      else (match s.cache.Get(task.url)
            case Some(token) => s.Goto(id, CachedTry(token), [Sent(id, task.url, Some(token))])
            case None => s.Goto(id, PlainTry, [Sent(id, task.url, None)]))
    case (CachedTry(_), HttpReply(status, header)) =>
      var s' := s.Note(Answered(id, status, header));
      if status != PAYMENT_REQUIRED then s'.Return(id, Unpaid(status, true)) else s'.Goto(id, DropRejected, [])
    case (DropRejected, StoreReply(ok)) =>
      if !ok then s.Return(id, Failure(StoreFailed))
      else
        s.(cache := s.cache.Remove(task.url)).Note(Removed(id, task.url))
         .Goto(id, PlainTry, [Sent(id, task.url, None)])
    case (PlainTry, HttpReply(status, header)) => OnPlain(cfg, s, id, status, header)
    case (Charging(challenge), ClockReply(now)) => OnClock(cfg, s, id, challenge, now)
    case (Paying(challenge), PayReply(payment)) =>
      s.Goto(id, Storing(challenge, payment), [Paid(id, task.url, challenge, payment)])
    case (Paying(_), PayError) => s.Note(Refused(id)).Return(id, Failure(PaymentFailed))
    case (Storing(challenge, payment), StoreReply(ok)) =>
      if !ok then s.Return(id, Failure(StoreFailed))
      else
        var token := TokenOf(challenge, payment);
        s.(cache := s.cache.Put(task.url, token)).Note(Stored(id, task.url, token))
         .Goto(id, Retrying(challenge, payment), [Sent(id, task.url, Some(token))])
    case (Retrying(challenge, payment), HttpReply(status, header)) =>
      var s' := s.Note(Answered(id, status, header));
      if status == PAYMENT_REQUIRED then s'.Goto(id, Revoking(challenge, payment), [])
      else
        var receipt := ReceiptOf(task.url, payment, status);
        s'.Return(id, Bought(receipt)).(receipts := s.receipts + [receipt])
    case (Revoking(_, _), StoreReply(ok)) =>
      if !ok then s.Return(id, Failure(StoreFailed))
      else
        s.(cache := s.cache.Remove(task.url)).Note(Removed(id, task.url)).Return(id, Failure(RetryFailed))
    case (CachedTry(_), HttpError) => s.Return(id, Failure(HttpFailed))
    case (PlainTry, HttpError) => s.Return(id, Failure(HttpFailed))
    case (Retrying(_, _), HttpError) => s.Return(id, Failure(HttpFailed))
    case _ => s
  }

  function Apply(cfg: Config, s: State, event: Event): State {
    match event
    case Spawn(id, url, host) =>
      if id in s.tasks then s else s.(tasks := s.tasks[id := Task(url, host, Lookup)])
    case Step(id, reply) => if id in s.tasks then Advance(cfg, s, id, reply) else s
    case Dropped(key) => s.(cache := s.cache.Remove(key))
  }

  /** Any interleaving: a run is the events in the order they happen. */
  function RunEvents(cfg: Config, cache: Cache, events: seq<Event>): State {
    if |events| == 0 then Initial(cache)
    else Apply(cfg, RunEvents(cfg, cache, events[..|events| - 1]), events[|events| - 1])
  }
}
