/** The client object: the steps of `request` as effects on its store, tracker and receipts. */
module Client {
  import opened Wrappers
  import opened TokenStore
  import opened Budget
  import opened L402Challenge
  import opened Engine
  import Bolt11

  class L402Client {
    const cfg: Config
    const tokenStore: InMemoryTokenStore
    const budgetTracker: BudgetTracker
    /** The requests in flight or finished, one suspended future each. */
    var tasks: map<nat, Task>
    var receiptList: seq<Receipt>
    ghost var log: seq<Fact>

    ghost predicate Valid() {
      budgetTracker.budget == cfg.budget
    }

    ghost function View(): State
      reads this, tokenStore, budgetTracker
    {
      State(tasks, tokenStore.Value(), budgetTracker.State(), receiptList, log)
    }

    constructor (cfg: Config, store: InMemoryTokenStore)
      ensures Valid() && View() == Initial(store.Value())
      ensures this.cfg == cfg && tokenStore == store && fresh(budgetTracker)
    {
      this.cfg := cfg;
      tokenStore := store;
      budgetTracker := new BudgetTracker(cfg.budget);
      tasks, receiptList, log := map[], [], [];
    }

    /** A new call of `request`. */
    method Start(id: nat, url: string, host: Option<string>)
      requires Valid()
      modifies this
      ensures View() == Apply(cfg, old(View()), Spawn(id, url, host))
    {
      if id !in tasks {
        tasks := tasks[id := Task(url, host, Lookup)];
      }
    }

    /** Suspends task `id` again, at another await. */
    method Suspend(id: nat, pc: Pc, ghost facts: seq<Fact>)
      requires id in tasks
      modifies this`tasks, this`log
      ensures View() == old(View()).Goto(id, pc, facts)
    {
      tasks := tasks[id := tasks[id].(pc := pc)];
      log := log + facts;
    }

    /** Only the history grows. */
    ghost method Note(f: Fact)
      modifies this`log
      ensures View() == old(View()).Note(f)
    {
      log := log + [f];
    }

    method Finish(id: nat, outcome: Outcome)
      requires id in tasks
      modifies this`tasks, this`log
      ensures View() == old(View()).Return(id, outcome)
    {
      Suspend(id, Done(outcome), [Returned(id, outcome)]);
    }

    /** The cached token for the url, if any, is tried first. */
    method AfterLookup(id: nat, ok: bool)
      requires Valid() && id in tasks && tasks[id].pc.Lookup?
      modifies this`tasks, this`log
      ensures View() == Advance(cfg, old(View()), id, StoreReply(ok))
    {
      if !ok {
        Finish(id, Failure(StoreFailed));
        return;
      }
      var url := tasks[id].url;
      var cached := tokenStore.Get(url);
      if cached.Some? {
        Suspend(id, CachedTry(cached.value), [Sent(id, url, cached)]);
      } else {
        Suspend(id, PlainTry, [Sent(id, url, None)]);
      }
    }

    method AfterCachedTry(id: nat, status: nat, header: Option<string>)
      requires Valid() && id in tasks && tasks[id].pc.CachedTry?
      modifies this`tasks, this`log
      ensures View() == Advance(cfg, old(View()), id, HttpReply(status, header))
    {
      Note(Answered(id, status, header));
      if status != PAYMENT_REQUIRED {
        Finish(id, Unpaid(status, true));
      } else {
        Suspend(id, DropRejected, []);
      }
    }

    method AfterDrop(id: nat, ok: bool)
      requires Valid() && id in tasks && tasks[id].pc.DropRejected?
      modifies this, tokenStore
      ensures View() == Advance(cfg, old(View()), id, StoreReply(ok))
    {
      if !ok {
        Finish(id, Failure(StoreFailed));
        return;
      }
      var url := tasks[id].url;
      tokenStore.Remove(url);
      Note(Removed(id, url));
      Suspend(id, PlainTry, [Sent(id, url, None)]);
    }

    method AfterPlainTry(id: nat, status: nat, header: Option<string>)
      requires Valid() && id in tasks && tasks[id].pc.PlainTry?
      modifies this`tasks, this`log
      ensures View() == Advance(cfg, old(View()), id, HttpReply(status, header))
    {
      hide Parse;
      Note(Answered(id, status, header));
      if status != PAYMENT_REQUIRED {
        Finish(id, Unpaid(status, false));
        return;
      }
      if header.None? {
        Finish(id, Failure(MissingChallenge));
        return;
      }
      var parsed := FromHeader(cfg.isBase64, header.value);
      match parsed {
        case Err(reason) => Finish(id, Failure(BadChallenge(reason)));
        case Ok(challenge) =>
          Suspend(id, Charging(challenge), [Challenged(id, tasks[id].url, challenge)]);
      }
    }

    /** The budget decision, at the clock reading `now`. */
    method AfterParse(id: nat, now: nat)
      requires Valid() && id in tasks && tasks[id].pc.Charging?
      modifies this, budgetTracker
      ensures View() == Advance(cfg, old(View()), id, ClockReply(now))
    {
      hide Judge, Record, Bolt11.Charge;
      var task := tasks[id];
      var challenge := task.pc.challenge;
      var amount := Bolt11.Charge(cfg.dec, challenge.invoice);
      var verdict := budgetTracker.CheckAndRecord(amount, task.host, now);
      ghost var ask := Asked(id, Call(now, amount, task.host), verdict);
      match verdict {
        case Exceeded(limit) =>
          var outcome := Failure(BudgetExceeded(limit));
          Suspend(id, Done(outcome), [ask, Returned(id, outcome)]);
        case Accepted =>
          Suspend(id, Paying(challenge), [ask, Issued(id, task.url, challenge)]);
      }
    }

    method AfterPay(id: nat, reply: Reply)
      requires Valid() && id in tasks && tasks[id].pc.Paying? && (reply.PayReply? || reply.PayError?)
      modifies this`tasks, this`log
      ensures View() == Advance(cfg, old(View()), id, reply)
    {
      var task := tasks[id];
      if reply.PayError? {
        Note(Refused(id));
        Finish(id, Failure(PaymentFailed));
      } else {
        var challenge := task.pc.challenge;
        Suspend(id, Storing(challenge, reply.payment), [Paid(id, task.url, challenge, reply.payment)]);
      }
    }

    method AfterStore(id: nat, ok: bool)
      requires Valid() && id in tasks && tasks[id].pc.Storing?
      modifies this, tokenStore
      ensures View() == Advance(cfg, old(View()), id, StoreReply(ok))
    {
      hide Cache.Put;
      var task := tasks[id];
      var challenge, payment := task.pc.challenge, task.pc.payment;
      if !ok {
        Finish(id, Failure(StoreFailed));
        return;
      }
      tokenStore.Put(task.url, challenge.macaroon, payment.preimage);
      var token := (challenge.macaroon, payment.preimage);
      Note(Stored(id, task.url, token));
      Suspend(id, Retrying(challenge, payment), [Sent(id, task.url, Some(token))]);
    }

    method AfterRetry(id: nat, status: nat, header: Option<string>)
      requires Valid() && id in tasks && tasks[id].pc.Retrying?
      modifies this
      ensures View() == Advance(cfg, old(View()), id, HttpReply(status, header))
    {
      var task := tasks[id];
      var payment := task.pc.payment;
      Note(Answered(id, status, header));
      if status == PAYMENT_REQUIRED {
        Suspend(id, Revoking(task.pc.challenge, payment), []);
        return;
      }
      var receipt := Receipt(task.url, payment.amountSats, payment.feeSats, payment.paymentHash,
          payment.preimage, status);
      receiptList := receiptList + [receipt];
      Finish(id, Bought(receipt));
    }

    method AfterRevoke(id: nat, ok: bool)
      requires Valid() && id in tasks && tasks[id].pc.Revoking?
      modifies this, tokenStore
      ensures View() == Advance(cfg, old(View()), id, StoreReply(ok))
    {
      if !ok {
        Finish(id, Failure(StoreFailed));
        return;
      }
      tokenStore.Remove(tasks[id].url);
      Note(Removed(id, tasks[id].url));
      Finish(id, Failure(RetryFailed));
    }

    /** Resumes task `id` with the reply it awaits; any other reply is not for it. */
    method Resume(id: nat, reply: Reply)
      requires Valid()
      modifies this, tokenStore, budgetTracker
      ensures View() == Apply(cfg, old(View()), Step(id, reply))
    {
      hide OnPlain, OnClock, Cache.Put, Cache.Remove, Cache.Get;
      if id !in tasks {
        return;
      }
      match (tasks[id].pc, reply) {
        case (Lookup, StoreReply(ok)) => AfterLookup(id, ok);
        case (CachedTry(_), HttpReply(status, header)) => AfterCachedTry(id, status, header);
        case (DropRejected, StoreReply(ok)) => AfterDrop(id, ok);
        case (PlainTry, HttpReply(status, header)) => AfterPlainTry(id, status, header);
        case (Charging(_), ClockReply(now)) => AfterParse(id, now);
        case (Paying(_), PayReply(_)) => AfterPay(id, reply);
        case (Paying(_), PayError) => AfterPay(id, reply);
        case (Storing(_, _), StoreReply(ok)) => AfterStore(id, ok);
        case (Retrying(_, _), HttpReply(status, header)) => AfterRetry(id, status, header);
        case (Revoking(_, _), StoreReply(ok)) => AfterRevoke(id, ok);
        case (CachedTry(_), HttpError) => Finish(id, Failure(HttpFailed));
        case (PlainTry, HttpError) => Finish(id, Failure(HttpFailed));
        case (Retrying(_, _), HttpError) => Finish(id, Failure(HttpFailed));
        case _ =>
      }
    }

    method Receipts() returns (list: seq<Receipt>)
      ensures list == View().receipts
    {
      list := receiptList;
    }

    method TotalSpent() returns (spent: nat)
      ensures spent == View().tracker.total
    {
      spent := budgetTracker.TotalSpent();
    }
  }
}
