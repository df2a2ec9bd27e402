/** The closed system under concurrency: every interleaving of any number of requests, with answers
    delayed at will. */
module ConcurrentTheorems {
  import opened Wrappers
  import opened TokenStore
  import opened L402Challenge
  import opened Engine
  import opened MockServer
  import opened ClosedSystem
  import opened ClosedLaws
  import opened ClosedTheorems
  import opened ConcurrentSystem
  import opened ConcurrentLaws
  import Budget
  import BudgetLaws
  import Bolt11
  import MockChallenge
  import EngineLaws
  import opened EngineTheorems

  // ----- a play is a run of the engine -----

  /** So whatever holds of every interleaving of the engine holds of every play. */
  lemma {:induction false} PlayIsRun(w: World, capacity: nat, balance: nat, moves: seq<Move>)
    ensures Play(w, capacity, balance, moves).engine
         == RunEvents(w.cfg, NewCache(capacity), EventsOf(w, capacity, balance, moves))
  {
    if |moves| > 0 {
      var before, m := moves[..|moves| - 1], moves[|moves| - 1];
      PlayIsRun(w, capacity, balance, before);
      var s, events := Play(w, capacity, balance, before), EventsOf(w, capacity, balance, before);
      hide Apply, Answer;
      match m
      case Arrive(id, url) => RunPush(w.cfg, NewCache(capacity), events, Spawn(id, url, w.host(url)));
      case Work(_, _, _) => assert events + [] == events;
      case Deliver(id) =>
        if id in s.inflight {
          RunPush(w.cfg, NewCache(capacity), events, Step(id, s.inflight[id]));
        } else {
          assert events + [] == events;
        }
    }
  }

  // ----- what a delivered answer logs -----

  /** A payment is logged when the backend's answer arrives, and only then; a budget call when the
      clock is read. */
  lemma {:induction false} AdvanceFacts(w: World, s: State, id: nat, reply: Reply) returns (facts: seq<Fact>)
    requires id in s.tasks
    ensures Advance(w.cfg, s, id, reply).log == s.log + facts
    ensures var t := s.tasks[id];
            if t.pc.Paying? && reply.PayReply? then facts == [Paid(id, t.url, t.pc.challenge, reply.payment)]
            else forall f :: f in facts ==> !f.Paid?
    ensures !(s.tasks[id].pc.Charging? && reply.ClockReply?) ==> forall f :: f in facts ==> !f.Asked?
  {
    facts := EngineLaws.Logged(w.cfg, s, id, reply);
    EngineLaws.AdvanceLogged(w.cfg, s, id, reply);
    hide EngineLaws.Decision, EngineLaws.AfterPlain, Advance;
    var pc := s.tasks[id].pc;
    if pc.PlainTry? && reply.HttpReply? {
      PlainUnpaid(w, id, s.tasks[id].url, reply.status, reply.wwwAuthenticate);
    } else if pc.Charging? && reply.ClockReply? {
      DecisionUnpaid(w, s, id, pc.challenge, reply.now);
    }
  }

  lemma {:induction false} DecisionUnpaid(w: World, s: State, id: nat, challenge: L402Challenge, now: nat)
    requires id in s.tasks
    ensures var (ask, second, _) := EngineLaws.Decision(w.cfg, s, id, challenge, now); ask.Asked? && !second.Paid?
  {
  }

  lemma {:induction false} PlainUnpaid(w: World, id: nat, url: string, status: nat, header: Option<string>)
    ensures var f := EngineLaws.AfterPlain(w.cfg, id, url, status, header); !f.Paid? && !f.Asked?
  {
  }

  // ----- conservation -----

  ghost function PaidSum(log: seq<Fact>): nat {
    if |log| == 0 then 0
    else PaidSum(log[..|log| - 1]) + if log[|log| - 1].Paid? then log[|log| - 1].payment.amountSats else 0
  }

  lemma {:induction false} PaidNone(log: seq<Fact>, facts: seq<Fact>)
    requires forall f :: f in facts ==> !f.Paid?
    ensures PaidSum(log + facts) == PaidSum(log)
  {
    if |facts| == 0 {
      assert log + facts == log;
    } else {
      var n := |facts| - 1;
      assert (log + facts)[..|log + facts| - 1] == log + facts[..n];
      PaidNone(log, facts[..n]);
    }
  }

  /** Sum of `f` over the first `n` request ids. */
  ghost function Total(n: nat, f: nat -> nat): nat {
    if n == 0 then 0 else Total(n - 1, f) + f(n - 1)
  }

  lemma {:induction false} TotalChange(n: nat, f: nat -> nat, g: nat -> nat, id: nat)
    requires forall k :: k != id ==> f(k) == g(k)
    ensures Total(n, g) + (if id < n then f(id) else 0) == Total(n, f) + if id < n then g(id) else 0
  {
    if n > 0 {
      TotalChange(n - 1, f, g, id);
    }
  }

  lemma {:induction false} TotalZero(n: nat, f: nat -> nat)
    requires forall k: nat :: k < n ==> f(k) == 0
    ensures Total(n, f) == 0
  {
    if n > 0 {
      TotalZero(n - 1, f);
    }
  }

  /** What a request has been paid for at the backend but has not logged yet. */
  ghost function Transit(t: Task, reply: Option<Reply>): nat {
    if t.pc.Paying? && reply.Some? && reply.value.PayReply? then reply.value.payment.amountSats else 0
  }

  /** What it has been paid for without having a receipt yet. */
  ghost function Held(t: Task, reply: Option<Reply>): nat {
    match t.pc
    case Storing(_, p) => p.amountSats
    case Retrying(_, p) => p.amountSats
    case _ => Transit(t, reply)
  }

  ghost function Transits(s: Net): nat -> nat {
    (id: nat) => if id in s.engine.tasks then Transit(s.engine.tasks[id], ReplyTo(s, id)) else 0
  }

  ghost function Holds(s: Net): nat -> nat {
    (id: nat) => if id in s.engine.tasks then Held(s.engine.tasks[id], ReplyTo(s, id)) else 0
  }

  /** `n` is above every request id. */
  ghost predicate Above(s: Net, n: nat) {
    forall id :: id in s.engine.tasks ==> id < n
  }

  /** The balance at the start is the balance now, what was paid, and what is on its way; and also
      the balance, the receipts, and what is paid without a receipt yet. */
  ghost predicate Conserved(s: Net, balance: nat, n: nat) {
    && balance == s.balance + PaidSum(s.engine.log) + Total(n, Transits(s))
    && balance == s.balance + ReceiptSum(s.engine.receipts) + Total(n, Holds(s))
  }

  /** What an answer does to one request. */
  lemma {:induction false} AnswerTaken(w: World, sys: Sys, id: nat, r: Req)
    requires Drawn(w, r) && id in sys.engine.tasks
    ensures var (reply, sys') := Answer(w, sys, id, r);
            && sys.balance == sys'.balance + Transit(sys.engine.tasks[id], Some(reply))
            && Held(sys.engine.tasks[id], Some(reply))
               == Held(sys.engine.tasks[id], None) + Transit(sys.engine.tasks[id], Some(reply))
  {
    hide Handle;
  }

  lemma {:induction false} WorkConserves(w: World, s: Net, m: Move, balance: nat, n: nat)
    requires m.Work? && Above(s, n) && Conserved(s, balance, n)
    ensures Conserved(Moved(w, s, m), balance, n)
  {
    if Awaits(s, m.id) && w.crypto.hash(m.preimage).Some? {
      var s', id, t := Moved(w, s, m), m.id, s.engine.tasks[m.id];
      AnswerTaken(w, Sys(s.engine, s.registry, s.balance), id, Req("", m.now, m.preimage, m.preimage, m.preimage));
      hide Transit, Held, Answer;
      assert Transits(s)(id) == 0 by { assert ReplyTo(s, id) == None; NoReplyNoTransit(t); }
      TotalChange(n, Transits(s), Transits(s'), id);
      TotalChange(n, Holds(s), Holds(s'), id);
    }
  }

  lemma {:induction false} NoReplyNoTransit(t: Task)
    ensures Transit(t, None) == 0
  {
  }

  lemma {:induction false} ReceiptAppend(receipts: seq<Receipt>, receipt: Receipt)
    ensures ReceiptSum(receipts + [receipt]) == ReceiptSum(receipts) + receipt.amountSats
  {
    assert (receipts + [receipt])[..|receipts|] == receipts;
  }

  /** What a delivered answer does to one request. */
  lemma {:induction false} StepTaken(w: World, registry: Registry, s: State, id: nat, reply: Reply)
    requires id in s.tasks && TaskOk(w, registry, s.tasks[id], Some(reply))
    ensures var s' := Advance(w.cfg, s, id, reply);
            && id in s'.tasks
            && PaidSum(s'.log) == PaidSum(s.log) + Transit(s.tasks[id], Some(reply))
            && Transit(s'.tasks[id], None) == 0
            && ReceiptSum(s'.receipts) + Held(s'.tasks[id], None)
               == ReceiptSum(s.receipts) + Held(s.tasks[id], Some(reply))
  {
    var facts := AdvanceFacts(w, s, id, reply);
    var t := s.tasks[id];
    if t.pc.Paying? && reply.PayReply? {
      assert (s.log + facts)[..|s.log|] == s.log;
    } else {
      PaidNone(s.log, facts);
    }
    HeldStep(w, registry, s, id, reply);
    hide Advance, TaskOk, Held, PaidSum;
  }

  lemma {:induction false} HeldStep(w: World, registry: Registry, s: State, id: nat, reply: Reply)
    requires id in s.tasks && TaskOk(w, registry, s.tasks[id], Some(reply))
    ensures var s' := Advance(w.cfg, s, id, reply);
            && id in s'.tasks
            && ReceiptSum(s'.receipts) + Held(s'.tasks[id], None)
               == ReceiptSum(s.receipts) + Held(s.tasks[id], Some(reply))
  {
    hide Settled, Offered, Good, FirstAnswer, ReceiptSum, Parse, OnClock, Cache.Put, Cache.Remove, Cache.Get;
    var t := s.tasks[id];
    if t.pc.Retrying? {
      ReceiptAppend(s.receipts, ReceiptOf(t.url, t.pc.payment, 200));
    } else if t.pc.Charging? {
      EngineLaws.OnClockIs(w.cfg, s, id, t.pc.challenge, reply.now);
      DecisionUnpaid(w, s, id, t.pc.challenge, reply.now);
    }
  }

  lemma {:induction false} DeliverConserves(w: World, s: Net, id: nat, balance: nat, n: nat)
    requires Sound(w, s) && Above(s, n) && Conserved(s, balance, n)
    ensures Conserved(Moved(w, s, Deliver(id)), balance, n)
  {
    if id in s.inflight {
      var s' := Moved(w, s, Deliver(id));
      assert ReplyTo(s, id) == Some(s.inflight[id]) && ReplyTo(s', id) == None;
      hide TaskOk, Advance, Transit, Held;
      StepTaken(w, s.registry, s.engine, id, s.inflight[id]);
      SumsElsewhere(w, s, id);
      TotalChange(n, Transits(s), Transits(s'), id);
      TotalChange(n, Holds(s), Holds(s'), id);
    }
  }

  lemma {:induction false} SumsElsewhere(w: World, s: Net, id: nat)
    requires id in s.inflight && id in s.engine.tasks
    ensures var s' := Moved(w, s, Deliver(id));
            forall k :: k != id ==> Transits(s)(k) == Transits(s')(k) && Holds(s)(k) == Holds(s')(k)
  {
    hide Advance, Held, Transit;
    var s' := Moved(w, s, Deliver(id));
    forall k | k != id ensures Transits(s)(k) == Transits(s')(k) && Holds(s)(k) == Holds(s')(k) {
      AdvanceElsewhere(w, s.engine, id, s.inflight[id], k);
      assert ReplyTo(s', k) == ReplyTo(s, k);
    }
  }

  lemma {:induction false} AdvanceElsewhere(w: World, s: State, id: nat, reply: Reply, other: nat)
    requires id in s.tasks && other != id
    ensures var s' := Advance(w.cfg, s, id, reply);
            (other in s'.tasks <==> other in s.tasks) && (other in s.tasks ==> s'.tasks[other] == s.tasks[other])
  {
    hide Parse, OnClock, Cache.Put, Cache.Remove, Cache.Get;
    if s.tasks[id].pc.Charging? && reply.ClockReply? {
      EngineLaws.OnClockIs(w.cfg, s, id, s.tasks[id].pc.challenge, reply.now);
    }
  }

  lemma {:induction false} AboveEarlier(w: World, s: Net, m: Move, n: nat)
    requires Above(Moved(w, s, m), n)
    ensures Above(s, n)
  {
    if m.Deliver? && m.id in s.inflight && m.id in s.engine.tasks {
      AdvanceRank(w.cfg, s.engine, m.id, s.inflight[m.id], m.id);
    }
    hide Answer, Advance;
    forall id | id in s.engine.tasks ensures id < n {
      assert id in Moved(w, s, m).engine.tasks;
    }
  }

  lemma {:induction false} MoveConserves(w: World, s: Net, m: Move, balance: nat, n: nat)
    requires Sound(w, s) && Above(Moved(w, s, m), n) && Conserved(s, balance, n)
    ensures Conserved(Moved(w, s, m), balance, n)
  {
    AboveEarlier(w, s, m, n);
    match m
    case Arrive(id, url) =>
      var s' := Moved(w, s, m);
      assert id !in s.engine.tasks ==> ReplyTo(s, id) == None;
      TotalChange(n, Transits(s), Transits(s'), id);
      TotalChange(n, Holds(s), Holds(s'), id);
      hide TaskOk;
    case Work(_, _, _) => WorkConserves(w, s, m, balance, n);
    case Deliver(id) =>
      DeliverConserves(w, s, id, balance, n);
      hide Sound, Conserved, Apply;
  }

  lemma {:induction false} PlayConserves(w: World, capacity: nat, balance: nat, moves: seq<Move>, n: nat)
    requires Sane(w) && FreshPlay(w, capacity, balance, moves) && Above(Play(w, capacity, balance, moves), n)
    ensures Conserved(Play(w, capacity, balance, moves), balance, n)
  {
    if |moves| == 0 {
      TotalZero(n, Transits(Opened(capacity, balance)));
      TotalZero(n, Holds(Opened(capacity, balance)));
    } else {
      var before, m := moves[..|moves| - 1], moves[|moves| - 1];
      var s := Play(w, capacity, balance, before);
      PlaySound(w, capacity, balance, before);
      AboveEarlier(w, s, m, n);
      PlayConserves(w, capacity, balance, before, n);
      MoveConserves(w, s, m, balance, n);
      hide Sane, Sound, Moved, Conserved, FreshMove;
    }
  }

  // ----- the books -----

  /** What a request has been charged while its payment is under way. */
  ghost function InPayment(w: World, t: Task, reply: Option<Reply>): nat {
    if t.pc.Paying? && !(reply.Some? && reply.value.PayReply?) then PriceOf(w, t.url) else 0
  }

  /** What it was charged although its payment failed. */
  ghost function Failed(w: World, t: Task): nat {
    if t.pc == Done(Failure(PaymentFailed)) then PriceOf(w, t.url) else 0
  }

  ghost function InPayments(w: World, s: Net): nat -> nat {
    (id: nat) => if id in s.engine.tasks then InPayment(w, s.engine.tasks[id], ReplyTo(s, id)) else 0
  }

  ghost function Failures(w: World, s: Net): nat -> nat {
    (id: nat) => if id in s.engine.tasks then Failed(w, s.engine.tasks[id]) else 0
  }

  /** What the budget recorded is the receipts, what is paid without a receipt yet, what is in payment,
      and what was charged although the payment failed. */
  ghost predicate Booked(w: World, s: Net, n: nat) {
    Recorded(s.engine.log)
    == ReceiptSum(s.engine.receipts) + Total(n, Holds(s)) + Total(n, InPayments(w, s)) + Total(n, Failures(w, s))
  }

  lemma {:induction false} RecordsNone(log: seq<Fact>, facts: seq<Fact>)
    requires forall f :: f in facts ==> !f.Asked?
    ensures EngineLaws.Records(log + facts) == EngineLaws.Records(log)
  {
    if |facts| == 0 {
      assert log + facts == log;
    } else {
      var n := |facts| - 1;
      assert (log + facts)[..|log + facts| - 1] == log + facts[..n];
      RecordsNone(log, facts[..n]);
    }
  }

  /** The charge of an offered challenge is the price. */
  lemma {:induction false} OfferedCharge(w: World, registry: Registry, url: string, ch: L402Challenge)
    requires Sane(w) && RegistryOk(w, registry) && Offered(w, registry, url, ch)
    ensures Bolt11.Charge(w.cfg.dec, ch.invoice) == PriceOf(w, url)
  {
    var c := registry[ch.invoice];
    ChallengeArrives(w, c.preimage, c.amountSats);
    hide Parse, Bolt11.Charge, Sane, MockChallenge.Generate;
  }

  /** A budget decision records the price exactly when the request goes on to pay. */
  lemma {:induction false} ClockRecords(w: World, registry: Registry, s: State, id: nat, now: nat)
    requires Sane(w) && RegistryOk(w, registry) && id in s.tasks && s.tasks[id].pc.Charging?
    requires Offered(w, registry, s.tasks[id].url, s.tasks[id].pc.challenge)
    ensures var t, s' := s.tasks[id], OnClock(w.cfg, s, id, s.tasks[id].pc.challenge, now);
            && id in s'.tasks && s'.tasks[id].url == t.url
            && Recorded(s'.log) == Recorded(s.log) + (if s'.tasks[id].pc.Paying? then PriceOf(w, t.url) else 0)
            && (!s'.tasks[id].pc.Paying? ==> s'.tasks[id].pc.Done? && s'.tasks[id].pc != Done(Failure(PaymentFailed)))
  {
    var ch := s.tasks[id].pc.challenge;
    var (ask, second, pc) := EngineLaws.Decision(w.cfg, s, id, ch, now);
    OfferedCharge(w, registry, s.tasks[id].url, ch);
    EngineLaws.OnClockIs(w.cfg, s, id, ch, now);
    hide Sane, RegistryOk, Offered, Bolt11.Charge, OnClock, BudgetLaws.Sum, Budget.Judge, Budget.Record;
    EngineLaws.QuietFact(s.log, ask);
    EngineLaws.QuietFact(s.log + [ask], second);
    assert s.log + [ask] + [second] == s.log + [ask, second];
    BudgetLaws.SumPush(EngineLaws.Records(s.log), ask.call, BudgetLaws.Any());
  }

  /** What a delivered answer does to the books of one request. */
  ghost predicate Rebooked(w: World, s: State, s': State, id: nat, reply: Reply)
    requires id in s.tasks
  {
    && id in s'.tasks
    && var t, t' := s.tasks[id], s'.tasks[id];
    Recorded(s'.log) + InPayment(w, t, Some(reply)) + Failed(w, t)
    == Recorded(s.log) + InPayment(w, t', None) + Failed(w, t')
  }

  lemma {:induction false} StepBooked(w: World, registry: Registry, s: State, id: nat, reply: Reply)
    requires Sane(w) && RegistryOk(w, registry) && id in s.tasks && TaskOk(w, registry, s.tasks[id], Some(reply))
    ensures Rebooked(w, s, Advance(w.cfg, s, id, reply), id, reply)
  {
    var t := s.tasks[id];
    if t.pc.Charging? {
      ClockRecords(w, registry, s, id, reply.now);
      hide OnClock, Settled, Offered, Good, FirstAnswer, Recorded, PriceOf, Sane, RegistryOk;
    } else {
      var facts := AdvanceFacts(w, s, id, reply);
      RecordsNone(s.log, facts);
      BooksMove(w, registry, s, id, reply);
      hide Advance, TaskOk, InPayment, Failed, Sane, RegistryOk, EngineLaws.Records, BudgetLaws.Sum;
    }
  }

  /** Apart from a budget decision, what is in payment can only fail or be paid. */
  lemma {:induction false} BooksMove(w: World, registry: Registry, s: State, id: nat, reply: Reply)
    requires id in s.tasks && TaskOk(w, registry, s.tasks[id], Some(reply)) && !s.tasks[id].pc.Charging?
    ensures var s' := Advance(w.cfg, s, id, reply);
            && id in s'.tasks
            && InPayment(w, s.tasks[id], Some(reply)) + Failed(w, s.tasks[id])
               == InPayment(w, s'.tasks[id], None) + Failed(w, s'.tasks[id])
  {
    hide Settled, Offered, Good, FirstAnswer, Parse, OnClock, PriceOf, Cache.Put, Cache.Remove, Cache.Get;
  }

  /** An answer moves a charge at most from in payment to paid. */
  lemma {:induction false} AnswerBooked(w: World, registry: Registry, t: Task, reply: Reply)
    requires TaskOk(w, registry, t, Some(reply))
    ensures Held(t, Some(reply)) + InPayment(w, t, Some(reply)) == Held(t, None) + InPayment(w, t, None)
  {
    hide Good, FirstAnswer;
  }

  lemma {:induction false} WorkBooks(w: World, s: Net, m: Move, n: nat)
    requires Sane(w) && Sound(w, s) && m.Work? && FreshMove(w, s, m) && Above(s, n) && Booked(w, s, n)
    ensures Booked(w, Moved(w, s, m), n)
  {
    if Awaits(s, m.id) && w.crypto.hash(m.preimage).Some? {
      var s', id, t := Moved(w, s, m), m.id, s.engine.tasks[m.id];
      WorkKeeps(w, s, m);
      assert s'.engine == s.engine && ReplyTo(s, id) == None && ReplyTo(s', id).Some? by { hide Answer; }
      assert TaskOk(w, s'.registry, t, ReplyTo(s', id));
      AnswerBooked(w, s'.registry, t, ReplyTo(s', id).value);
      forall k | k != id ensures ReplyTo(s', k) == ReplyTo(s, k) {
        hide Answer;
      }
      hide Held, InPayment, Failed, TaskOk, Moved, FreshMove, Sane, Recorded, ReceiptSum;
      TotalChange(n, Holds(s), Holds(s'), id);
      TotalChange(n, InPayments(w, s), InPayments(w, s'), id);
      TotalChange(n, Failures(w, s), Failures(w, s'), id);
    }
  }

  lemma {:induction false} DeliverBooks(w: World, s: Net, id: nat, n: nat)
    requires Sane(w) && Sound(w, s) && Above(s, n) && Booked(w, s, n)
    ensures Booked(w, Moved(w, s, Deliver(id)), n)
  {
    if id in s.inflight {
      var s' := Moved(w, s, Deliver(id));
      assert ReplyTo(s, id) == Some(s.inflight[id]) && ReplyTo(s', id) == None;
      hide TaskOk, Advance, Held, InPayment, Failed, Sane, RegistryOk, Recorded, ReceiptSum;
      HeldStep(w, s.registry, s.engine, id, s.inflight[id]);
      StepBooked(w, s.registry, s.engine, id, s.inflight[id]);
      DeliverElsewhere(w, s, id);
      TotalChange(n, Holds(s), Holds(s'), id);
      TotalChange(n, InPayments(w, s), InPayments(w, s'), id);
      TotalChange(n, Failures(w, s), Failures(w, s'), id);
    }
  }

  /** Other requests' books stay as they are. */
  lemma {:induction false} DeliverElsewhere(w: World, s: Net, id: nat)
    requires id in s.inflight && id in s.engine.tasks
    ensures var s' := Moved(w, s, Deliver(id));
            forall k :: k != id ==>
              && Holds(s)(k) == Holds(s')(k) && InPayments(w, s)(k) == InPayments(w, s')(k)
              && Failures(w, s)(k) == Failures(w, s')(k)
  {
    hide Advance, Held, InPayment, Failed;
    var s' := Moved(w, s, Deliver(id));
    forall k | k != id
      ensures Holds(s)(k) == Holds(s')(k) && InPayments(w, s)(k) == InPayments(w, s')(k)
      ensures Failures(w, s)(k) == Failures(w, s')(k)
    {
      AdvanceElsewhere(w, s.engine, id, s.inflight[id], k);
      assert ReplyTo(s', k) == ReplyTo(s, k);
    }
  }

  lemma {:induction false} ArriveBooks(w: World, s: Net, m: Move, n: nat)
    requires Sound(w, s) && m.Arrive? && Above(Moved(w, s, m), n) && Booked(w, s, n)
    ensures Booked(w, Moved(w, s, m), n)
  {
    var s' := Moved(w, s, m);
    assert m.id !in s.engine.tasks ==> ReplyTo(s, m.id) == None;
    hide TaskOk, Recorded, ReceiptSum;
    TotalChange(n, Holds(s), Holds(s'), m.id);
    TotalChange(n, InPayments(w, s), InPayments(w, s'), m.id);
    TotalChange(n, Failures(w, s), Failures(w, s'), m.id);
  }

  lemma {:induction false} PlayBooks(w: World, capacity: nat, balance: nat, moves: seq<Move>, n: nat)
    requires Sane(w) && FreshPlay(w, capacity, balance, moves) && Above(Play(w, capacity, balance, moves), n)
    ensures Booked(w, Play(w, capacity, balance, moves), n)
  {
    if |moves| == 0 {
      var s := Opened(capacity, balance);
      TotalZero(n, Holds(s));
      TotalZero(n, InPayments(w, s));
      TotalZero(n, Failures(w, s));
    } else {
      var before, m := moves[..|moves| - 1], moves[|moves| - 1];
      var s := Play(w, capacity, balance, before);
      PlaySound(w, capacity, balance, before);
      AboveEarlier(w, s, m, n);
      PlayBooks(w, capacity, balance, before, n);
      hide Sane, Sound, Moved, Booked, FreshMove, Above;
      match m
      case Arrive(_, _) => ArriveBooks(w, s, m, n);
      case Work(_, _, _) => WorkBooks(w, s, m, n);
      case Deliver(id) => DeliverBooks(w, s, id, n);
    }
  }

  /** Over every play with fresh invoices: whatever has returned did so with a response or for want
      of budget or balance, never with RetryFailed; the server accepts every token that is cached
      or on its way to being sent; the money is conserved; and the budget's records are the
      receipts, the payments without one yet, and the charges in payment or failed. */
  lemma {:induction false} ConcurrentPlay(w: World, capacity: nat, balance: nat, moves: seq<Move>, n: nat)
    requires Sane(w) && FreshPlay(w, capacity, balance, moves) && Above(Play(w, capacity, balance, moves), n)
    ensures var s := Play(w, capacity, balance, moves);
            && Conserved(s, balance, n) && Booked(w, s, n)
            && (forall id :: id in s.engine.tasks && s.engine.tasks[id].pc.Done? ==>
                  Expected(s.engine.tasks[id].pc.outcome))
            && (forall url :: url in s.engine.cache.tokens ==> Accepts(w, s, url, s.engine.cache.tokens[url]))
            && (forall id :: id in s.engine.tasks && Carries(s.engine.tasks[id].pc).Some? ==>
                  Accepts(w, s, s.engine.tasks[id].url, Carries(s.engine.tasks[id].pc).value))
  {
    PlayConserves(w, capacity, balance, moves, n);
    PlayBooks(w, capacity, balance, moves, n);
    PlaySound(w, capacity, balance, moves);
    var s := Play(w, capacity, balance, moves);
    hide Play, FreshPlay, Conserved, Booked, Accepts, Sane, Good, Settled, RegistryOk, FirstAnswer, Offered, Expected;
    forall url | url in s.engine.cache.tokens ensures Accepts(w, s, url, s.engine.cache.tokens[url]) {
      GoodAccepted(w, s, url, s.engine.cache.tokens[url]);
    }
    forall id | id in s.engine.tasks && Carries(s.engine.tasks[id].pc).Some?
      ensures Accepts(w, s, s.engine.tasks[id].url, Carries(s.engine.tasks[id].pc).value)
    {
      var t := s.engine.tasks[id];
      assert TaskOk(w, s.registry, t, ReplyTo(s, id));
      if !t.pc.CachedTry? {
        SettledGood(w, s.registry, t.url, t.pc.challenge, t.pc.payment);
      }
      GoodAccepted(w, s, t.url, Carries(t.pc).value);
    }
  }

  /** The token a request is sending, or about to store and send. */
  ghost function Carries(pc: Pc): Option<Token> {
    match pc
    case CachedTry(token) => Some(token)
    case Storing(ch, p) => Some(TokenOf(ch, p))
    case Retrying(ch, p) => Some(TokenOf(ch, p))
    case _ => None
  }

  /** The server answers 200 to the token, for that url. */
  ghost predicate Accepts(w: World, s: Net, url: string, token: Token) {
    w.path(url) in w.endpoints && Validate(w.crypto, s.registry, AuthOf(token)) == Some(true)
  }

  lemma {:induction false} GoodAccepted(w: World, s: Net, url: string, token: Token)
    requires Good(w, s.registry, url, token)
    ensures Accepts(w, s, url, token)
  {
    AuthArrives(w, s.registry, token);
    hide Validate, AuthOf, Redeemable;
  }

  /** Move `i` computed an answer with this random draw. */
  ghost predicate DrawnBy(moves: seq<Move>, i: nat, preimage: string) {
    i < |moves| && moves[i].Work? && moves[i].preimage == preimage
  }

  /** An answer adds at most a challenge of its own draw. */
  lemma {:induction false} WorkDraws(w: World, s: Net, m: Move, k: string)
    requires m.Work? && k in Moved(w, s, m).registry
    ensures || (k in s.registry && Moved(w, s, m).registry[k] == s.registry[k])
            || Moved(w, s, m).registry[k].preimage == m.preimage
  {
    hide Validate, AuthOf, MockChallenge.PrintInvoice, MockChallenge.PendingChallenge.ToWwwAuthenticate;
  }

  /** Every entry was drawn by some move. */
  ghost predicate AllDrawnBy(moves: seq<Move>, registry: Registry) {
    forall k :: k in registry ==> exists i: nat :: DrawnBy(moves, i, registry[k].preimage)
  }

  lemma {:induction false} RegistryDrawn(w: World, capacity: nat, balance: nat, moves: seq<Move>)
    ensures AllDrawnBy(moves, Play(w, capacity, balance, moves).registry)
  {
    if |moves| > 0 {
      var n := |moves| - 1;
      RegistryDrawn(w, capacity, balance, moves[..n]);
      MoveDraws(w, Play(w, capacity, balance, moves[..n]), moves);
      hide Moved, AllDrawnBy;
    }
  }

  lemma {:induction false} MoveDraws(w: World, s: Net, moves: seq<Move>)
    requires |moves| > 0 && AllDrawnBy(moves[..|moves| - 1], s.registry)
    ensures AllDrawnBy(moves, Moved(w, s, moves[|moves| - 1]).registry)
  {
    var n := |moves| - 1;
    var s' := Moved(w, s, moves[n]);
    forall k | k in s'.registry ensures exists i: nat :: DrawnBy(moves, i, s'.registry[k].preimage) {
      if moves[n].Work? {
        WorkDraws(w, s, moves[n], k);
      }
      if k in s.registry && s'.registry[k] == s.registry[k] {
        var i: nat :| DrawnBy(moves[..n], i, s.registry[k].preimage);
        assert DrawnBy(moves, i, s'.registry[k].preimage);
      } else {
        assert DrawnBy(moves, n, s'.registry[k].preimage);
      }
    }
    hide Answer, Apply;
  }

  /** A preimage and macaroon of a challenge that an earlier answer drew. */
  ghost predicate Proves(w: World, moves: seq<Move>, token: Token) {
    exists i: nat, preimage: string ::
      && DrawnBy(moves, i, preimage) && w.crypto.hash(preimage).Some?
      && w.crypto.hash(token.1) == w.crypto.hash(preimage)
      && token.0 == w.crypto.macaroon(w.crypto.hash(preimage).value)
  }

  /** Over every play, every token cached or on its way to the server proves payment of a challenge that
      the server issued in that play. */
  lemma {:induction false} CarriedProves(w: World, capacity: nat, balance: nat, moves: seq<Move>)
    requires Sane(w) && FreshPlay(w, capacity, balance, moves)
    ensures var s := Play(w, capacity, balance, moves);
            && (forall url :: url in s.engine.cache.tokens ==> Proves(w, moves, s.engine.cache.tokens[url]))
            && (forall id :: id in s.engine.tasks && Carries(s.engine.tasks[id].pc).Some? ==>
                  Proves(w, moves, Carries(s.engine.tasks[id].pc).value))
  {
    PlaySound(w, capacity, balance, moves);
    RegistryDrawn(w, capacity, balance, moves);
    var s := Play(w, capacity, balance, moves);
    hide Play, FreshPlay, Proves, Sane, Good, Settled, FirstAnswer, Offered, Expected, AllDrawnBy, RegistryOk;
    forall url | url in s.engine.cache.tokens ensures Proves(w, moves, s.engine.cache.tokens[url]) {
      GoodProves(w, s.registry, moves, url, s.engine.cache.tokens[url]);
    }
    forall id | id in s.engine.tasks && Carries(s.engine.tasks[id].pc).Some?
      ensures Proves(w, moves, Carries(s.engine.tasks[id].pc).value)
    {
      var t := s.engine.tasks[id];
      assert TaskOk(w, s.registry, t, ReplyTo(s, id));
      if !t.pc.CachedTry? {
        SettledGood(w, s.registry, t.url, t.pc.challenge, t.pc.payment);
      }
      GoodProves(w, s.registry, moves, t.url, Carries(t.pc).value);
    }
  }

  lemma {:induction false} GoodProves(w: World, registry: Registry, moves: seq<Move>, url: string, token: Token)
    requires RegistryOk(w, registry) && Good(w, registry, url, token)
    requires AllDrawnBy(moves, registry)
    ensures Proves(w, moves, token)
  {
    var k :| k in registry && registry[k].ValidateAuth(w.crypto, token.0, token.1);
    var i: nat :| DrawnBy(moves, i, registry[k].preimage);
    hide MockChallenge.PrintInvoice, DrawnBy;
  }

  /** Once every request has returned, the balance lost is what was paid, every payment has its
      receipt, and total spent is that plus the charges whose payment failed, modulo 2^64. */
  lemma {:induction false} AllReturned(w: World, capacity: nat, balance: nat, moves: seq<Move>, n: nat)
    requires Sane(w) && FreshPlay(w, capacity, balance, moves) && Above(Play(w, capacity, balance, moves), n)
    requires forall id :: id in Play(w, capacity, balance, moves).engine.tasks ==>
               Play(w, capacity, balance, moves).engine.tasks[id].pc.Done?
    ensures var s := Play(w, capacity, balance, moves);
            && balance == s.balance + ReceiptSum(s.engine.receipts)
            && PaidSum(s.engine.log) == ReceiptSum(s.engine.receipts)
            && Recorded(s.engine.log) == ReceiptSum(s.engine.receipts) + Total(n, Failures(w, s))
            && s.engine.tracker.total == Wrap64(Recorded(s.engine.log))
  {
    PlayConserves(w, capacity, balance, moves, n);
    PlayBooks(w, capacity, balance, moves, n);
    PlayIsRun(w, capacity, balance, moves);
    TrackerIsSequential(w.cfg, NewCache(capacity), EventsOf(w, capacity, balance, moves));
    var s := Play(w, capacity, balance, moves);
    hide Play, FreshPlay, ReceiptSum, PaidSum, Recorded, EventsOf, RunEvents, Failed;
    TotalZero(n, Transits(s));
    TotalZero(n, Holds(s));
    TotalZero(n, InPayments(w, s));
  }
}
