/** What every interleaving of every number of requests keeps. */
module EngineLaws {
  import opened Wrappers
  import opened TokenStore
  import opened Payment
  import opened Budget
  import opened L402Challenge
  import opened Engine
  import Bolt11

  // ----- the justified history -----

  /** What a request does at most once, and (`OtherKind`) the rest. */
  datatype Kind = OtherKind | ChallengeKind | AskKind | IssueKind | PayKind | ReturnKind

  function KindOf(f: Fact): Kind {
    match f
    case Challenged(_, _, _) => ChallengeKind
    case Asked(_, _, _) => AskKind
    case Issued(_, _, _) => IssueKind
    case Paid(_, _, _, _) => PayKind
    case Returned(_, _) => ReturnKind
    case _ => OtherKind
  }

  /** Task `id` has done nothing of kind `k`. */
  ghost predicate Absent(log: seq<Fact>, id: nat, k: Kind) {
    forall f :: f in log ==> !(f.id == id && KindOf(f) == k)
  }

  /** The pair was bought from a challenge for this url: an invoice paid with that preimage. */
  ghost predicate BoughtToken(log: seq<Fact>, url: string, token: Token) {
    exists id: nat, challenge: L402Challenge, payment: PaymentResult ::
      Paid(id, url, challenge, payment) in log && token == TokenOf(challenge, payment)
  }

  /** The pair was in the store from the start, or was bought. */
  ghost predicate Known(initial: Cache, log: seq<Fact>, url: string, token: Token) {
    initial.Get(url) == Some(token) || BoughtToken(log, url, token)
  }

  /** Request `id` asked the budget for this challenge's charge and was allowed. */
  ghost predicate Allowed(cfg: Config, log: seq<Fact>, id: nat, challenge: L402Challenge) {
    exists call: Call :: Asked(id, call, Accepted) in log && call.amount == Bolt11.Charge(cfg.dec, challenge.invoice)
  }

  /** What must have happened before a fact. */
  ghost predicate Justified(cfg: Config, initial: Cache, before: seq<Fact>, f: Fact) {
    (KindOf(f).OtherKind? || Absent(before, f.id, KindOf(f))) &&
    match f
    case Sent(_, url, auth) => auth.Some? ==> Known(initial, before, url, auth.value)
    case Stored(_, url, token) => Known(initial, before, url, token)
    case Challenged(id, _, challenge) =>
      exists text: string ::
        Answered(id, PAYMENT_REQUIRED, Some(text)) in before && Parse(cfg.isBase64, text) == Ok(challenge)
    case Asked(id, call, _) =>
      exists url: string, challenge: L402Challenge ::
        Challenged(id, url, challenge) in before && call.amount == Bolt11.Charge(cfg.dec, challenge.invoice)
    case Issued(id, url, challenge) =>
      Challenged(id, url, challenge) in before && Allowed(cfg, before, id, challenge)
    case Paid(id, url, challenge, _) => Issued(id, url, challenge) in before
    case Returned(id, outcome) =>
      outcome.Bought? ==>
        exists url: string, challenge: L402Challenge, payment: PaymentResult, status: nat ::
          && Paid(id, url, challenge, payment) in before && status != PAYMENT_REQUIRED
          && outcome.receipt == ReceiptOf(url, payment, status)
    case _ => true
  }

  ghost predicate WellFounded(cfg: Config, initial: Cache, log: seq<Fact>) {
    |log| == 0
    || (WellFounded(cfg, initial, log[..|log| - 1])
        && Justified(cfg, initial, log[..|log| - 1], log[|log| - 1]))
  }

  lemma {:induction false} PushFact(cfg: Config, initial: Cache, log: seq<Fact>, f: Fact)
    requires WellFounded(cfg, initial, log) && Justified(cfg, initial, log, f)
    ensures WellFounded(cfg, initial, log + [f])
  {
    assert (log + [f])[..|log|] == log;
  }

  lemma {:induction false} KnownGrows(initial: Cache, log: seq<Fact>, more: seq<Fact>, url: string, token: Token)
    requires Known(initial, log, url, token)
    ensures Known(initial, log + more, url, token)
  {
    if BoughtToken(log, url, token) {
      var id: nat, challenge: L402Challenge, payment: PaymentResult :|
        Paid(id, url, challenge, payment) in log && token == TokenOf(challenge, payment);
      assert Paid(id, url, challenge, payment) in log + more;
    }
  }

  // ----- the invariant -----

  /** What the program counter of a task says about its history. */
  ghost predicate TaskAt(cfg: Config, log: seq<Fact>, id: nat, t: Task) {
    match t.pc
    case Charging(ch) =>
      && Challenged(id, t.url, ch) in log && Absent(log, id, AskKind) && Absent(log, id, IssueKind)
      && Absent(log, id, PayKind) && Absent(log, id, ReturnKind)
    case Paying(ch) => Issued(id, t.url, ch) in log && Absent(log, id, PayKind) && Absent(log, id, ReturnKind)
    case Storing(ch, p) => Paid(id, t.url, ch, p) in log && Absent(log, id, ReturnKind)
    case Retrying(ch, p) => Paid(id, t.url, ch, p) in log && Absent(log, id, ReturnKind)
    case Revoking(ch, p) => Paid(id, t.url, ch, p) in log && Absent(log, id, ReturnKind)
    case Done(outcome) => Returned(id, outcome) in log
    case _ =>
      && Absent(log, id, ChallengeKind) && Absent(log, id, AskKind) && Absent(log, id, IssueKind)
      && Absent(log, id, PayKind) && Absent(log, id, ReturnKind)
  }

  ghost predicate TasksAt(cfg: Config, tasks: map<nat, Task>, log: seq<Fact>) {
    && (forall id :: id in tasks ==> TaskAt(cfg, log, id, tasks[id]))
    && (forall f :: f in log ==> f.id in tasks)
  }

  ghost predicate StoreKnown(initial: Cache, cache: Cache, log: seq<Fact>) {
    forall url :: url in cache.tokens ==> Known(initial, log, url, cache.tokens[url])
  }

  /** The budget calls of a history. */
  function Calls(log: seq<Fact>): seq<Call> {
    if |log| == 0 then []
    else
      var f := log[|log| - 1];
      var before := Calls(log[..|log| - 1]);
      if f.Asked? then before + [f.call] else before
  }

  /** The accepted ones. */
  function Records(log: seq<Fact>): seq<Call> {
    if |log| == 0 then []
    else
      var f := log[|log| - 1];
      var before := Records(log[..|log| - 1]);
      if f.Asked? && f.verdict.Accepted? then before + [f.call] else before
  }

  /** The receipts of the requests that returned a paid response, in order of completion. */
  function Receipts(log: seq<Fact>): seq<Receipt> {
    if |log| == 0 then []
    else
      var f := log[|log| - 1];
      var before := Receipts(log[..|log| - 1]);
      if f.Returned? && f.outcome.Bought? then before + [f.outcome.receipt] else before
  }

  ghost predicate Accounted(cfg: Config, s: State) {
    && s.receipts == Receipts(s.log)
    && Exec(CODE, cfg.budget, Calls(s.log)) == Ledger(s.tracker, Records(s.log))
  }

  ghost predicate Inv(cfg: Config, initial: Cache, s: State) {
    && WellFounded(cfg, initial, s.log)
    && TasksAt(cfg, s.tasks, s.log)
    && StoreKnown(initial, s.cache, s.log)
    && Accounted(cfg, s)
  }

  // ----- one step keeps it -----

  /** Facts of one task leave every other task where it is. */
  lemma {:induction false} OthersKeep(cfg: Config, tasks: map<nat, Task>, log: seq<Fact>, id: nat, t: Task,
      facts: seq<Fact>)
    requires TasksAt(cfg, tasks, log) && id in tasks
    requires forall f :: f in facts ==> f.id == id
    requires TaskAt(cfg, log + facts, id, t)
    ensures TasksAt(cfg, tasks[id := t], log + facts)
  {
    var tasks', log' := tasks[id := t], log + facts;
    forall k | k in tasks' ensures TaskAt(cfg, log', k, tasks'[k]) {
      if k != id {
        assert TaskAt(cfg, log, k, tasks[k]);
        forall kind: Kind | Absent(log, k, kind) ensures Absent(log', k, kind) {
        }
      }
    }
  }

  lemma {:induction false} StoreGrows(initial: Cache, cache: Cache, log: seq<Fact>, more: seq<Fact>)
    requires StoreKnown(initial, cache, log)
    ensures StoreKnown(initial, cache, log + more)
  {
    forall url | url in cache.tokens ensures Known(initial, log + more, url, cache.tokens[url]) {
      KnownGrows(initial, log, more, url, cache.tokens[url]);
    }
  }

  /** Only budget calls and paid returns touch the accounts. */
  lemma {:induction false} QuietFact(log: seq<Fact>, f: Fact)
    ensures Calls(log + [f]) == if f.Asked? then Calls(log) + [f.call] else Calls(log)
    ensures Records(log + [f]) == if f.Asked? && f.verdict.Accepted? then Records(log) + [f.call] else Records(log)
    ensures Receipts(log + [f]) ==
            if f.Returned? && f.outcome.Bought? then Receipts(log) + [f.outcome.receipt] else Receipts(log)
  {
    assert (log + [f])[..|log|] == log;
  }

  /** A step that only logs one justified fact of its request. */
  lemma {:induction false} LogOne(cfg: Config, initial: Cache, s: State, id: nat, pc: Pc, f: Fact)
    requires Inv(cfg, initial, s) && id in s.tasks && f.id == id
    requires Justified(cfg, initial, s.log, f) && !f.Asked? && !(f.Returned? && f.outcome.Bought?)
    requires TaskAt(cfg, s.log + [f], id, s.tasks[id].(pc := pc))
    ensures Inv(cfg, initial, s.Goto(id, pc, [f]))
  {
    hide Justified, TaskAt, Known, Exec, WellFounded, TasksAt, StoreKnown, Calls, Records, Receipts;
    assert forall g :: g in [f] ==> g.id == id;
    PushFact(cfg, initial, s.log, f);
    OthersKeep(cfg, s.tasks, s.log, id, s.tasks[id].(pc := pc), [f]);
    StoreGrows(initial, s.cache, s.log, [f]);
    QuietFact(s.log, f);
  }

  /** A fact that may happen again leaves its request where it is. */
  lemma {:induction false} OtherStays(cfg: Config, log: seq<Fact>, id: nat, t: Task, f: Fact)
    requires KindOf(f).OtherKind? && TaskAt(cfg, log, id, t)
    ensures TaskAt(cfg, log + [f], id, t)
  {
    forall k: Kind | !k.OtherKind? && Absent(log, id, k) ensures Absent(log + [f], id, k) {
    }
  }

  lemma {:induction false} NoteIs(s: State, id: nat, f: Fact)
    requires id in s.tasks
    ensures s.Note(f) == s.Goto(id, s.tasks[id].pc, [f])
  {
    assert s.tasks[id := s.tasks[id].(pc := s.tasks[id].pc)] == s.tasks;
  }

  /** Noting such a fact keeps the invariant. */
  lemma {:induction false} NoteKeeps(cfg: Config, initial: Cache, s: State, id: nat, f: Fact)
    requires Inv(cfg, initial, s) && id in s.tasks && f.id == id
    requires KindOf(f).OtherKind? && Justified(cfg, initial, s.log, f)
    ensures Inv(cfg, initial, s.Note(f))
  {
    TaskOf(cfg, s, id);
    OtherStays(cfg, s.log, id, s.tasks[id], f);
    NoteIs(s, id, f);
    assert s.tasks[id].(pc := s.tasks[id].pc) == s.tasks[id];
    hide Justified, TaskAt, Inv;
    LogOne(cfg, initial, s, id, s.tasks[id].pc, f);
  }

  /** An answer, a refusal or a removal needs no justification. */
  lemma {:induction false} AnswerKeeps(cfg: Config, initial: Cache, s: State, id: nat, f: Fact)
    requires Inv(cfg, initial, s) && id in s.tasks && f.id == id
    requires f.Answered? || f.Refused? || f.Removed?
    ensures Inv(cfg, initial, s.Note(f))
  {
    hide Inv;
    NoteKeeps(cfg, initial, s, id, f);
  }

  lemma {:induction false} InvTask(cfg: Config, initial: Cache, s: State, id: nat)
    requires Inv(cfg, initial, s) && id in s.tasks
    ensures TaskAt(cfg, s.log, id, s.tasks[id])
  {
    TaskOf(cfg, s, id);
    hide TaskAt;
  }

  /** A step that logs nothing. */
  lemma {:induction false} LogNone(cfg: Config, initial: Cache, s: State, id: nat, pc: Pc)
    requires Inv(cfg, initial, s) && id in s.tasks
    requires TaskAt(cfg, s.log, id, s.tasks[id].(pc := pc))
    ensures Inv(cfg, initial, s.Goto(id, pc, []))
  {
    assert s.log + [] == s.log;
  }

  lemma {:induction false} ReturnUnpaid(cfg: Config, initial: Cache, s: State, id: nat, outcome: Outcome)
    requires Inv(cfg, initial, s) && id in s.tasks && !s.tasks[id].pc.Done? && !outcome.Bought?
    ensures Inv(cfg, initial, s.Return(id, outcome))
  {
    assert TaskAt(cfg, s.log, id, s.tasks[id]);
    LogOne(cfg, initial, s, id, Done(outcome), Returned(id, outcome));
  }

  /** Removing from the store keeps the invariant. */
  lemma {:induction false} RemoveKeeps(cfg: Config, initial: Cache, s: State, key: string)
    requires Inv(cfg, initial, s)
    ensures Inv(cfg, initial, s.(cache := s.cache.Remove(key)))
  {
  }

  lemma {:induction false} PutKeeps(initial: Cache, cache: Cache, log: seq<Fact>, url: string, token: Token)
    requires StoreKnown(initial, cache, log) && Known(initial, log, url, token)
    ensures StoreKnown(initial, cache.Put(url, token), log)
  {
  }

  /** The two facts of a budget decision. */
  ghost function Decision(cfg: Config, s: State, id: nat, challenge: L402Challenge, now: nat): (Fact, Fact, Pc)
    requires id in s.tasks
  {
    var call := ChargeCall(cfg, s.tasks[id], challenge, now);
    match Judge(CODE, cfg.budget, s.tracker, call)
    case Accepted => (Asked(id, call, Accepted), Issued(id, s.tasks[id].url, challenge), Paying(challenge))
    case Exceeded(limit) =>
      (Asked(id, call, Exceeded(limit)), Returned(id, Failure(BudgetExceeded(limit))),
       Done(Failure(BudgetExceeded(limit))))
  }

  lemma {:induction false} DecisionJustified(cfg: Config, initial: Cache, s: State, id: nat,
                                             challenge: L402Challenge, now: nat)
    requires Inv(cfg, initial, s) && id in s.tasks && s.tasks[id].pc == Charging(challenge)
    ensures var (ask, second, pc) := Decision(cfg, s, id, challenge, now);
            && WellFounded(cfg, initial, s.log + [ask] + [second])
            && TaskAt(cfg, s.log + [ask, second], id, s.tasks[id].(pc := pc))
  {
    hide Judge, Bolt11.Charge, Accounted, StoreKnown;
    var task, log := s.tasks[id], s.log;
    InvTask(cfg, initial, s, id);
    var (ask, second, pc) := Decision(cfg, s, id, challenge, now);
    assert Justified(cfg, initial, log, ask) by {
      assert Challenged(id, task.url, challenge) in log;
    }
    PushFact(cfg, initial, log, ask);
    SecondJustified(cfg, initial, log, id, task.url, challenge, ask, second);
    PushFact(cfg, initial, log + [ask], second);
    hide Inv, Justified, WellFounded, Decision, Parse;
    DecisionTask(cfg, log, id, task.(pc := pc), ask, second);
  }

  lemma {:induction false} DecisionTask(cfg: Config, log: seq<Fact>, id: nat, t: Task, ask: Fact, second: Fact)
    requires ask.Asked? && Absent(log, id, PayKind) && Absent(log, id, ReturnKind)
    requires match t.pc
             case Paying(ch) => second == Issued(id, t.url, ch)
             case Done(outcome) => second == Returned(id, outcome)
             case _ => false
    ensures TaskAt(cfg, log + [ask, second], id, t)
  {
    assert second in log + [ask, second];
  }

  lemma {:induction false} SecondJustified(cfg: Config, initial: Cache, log: seq<Fact>, id: nat, url: string,
      challenge: L402Challenge, ask: Fact, second: Fact)
    requires Challenged(id, url, challenge) in log && Absent(log, id, KindOf(second))
    requires ask.Asked? && ask.id == id && ask.call.amount == Bolt11.Charge(cfg.dec, challenge.invoice)
    requires if ask.verdict.Accepted? then second == Issued(id, url, challenge)
             else second.Returned? && second.id == id && !second.outcome.Bought?
    ensures Justified(cfg, initial, log + [ask], second)
  {
    hide Bolt11.Charge;
    assert ask in log + [ask] && Challenged(id, url, challenge) in log + [ask];
    assert ask.verdict.Accepted? ==> ask == Asked(id, ask.call, Accepted);
    assert ask.verdict.Accepted? ==> Allowed(cfg, log + [ask], id, challenge);
  }

  /** A step that logs two facts of its request and may change the tracker. */
  lemma {:induction false} LogTwo(cfg: Config, initial: Cache, s: State, id: nat, pc: Pc, ask: Fact, second: Fact,
                                  s': State)
    requires Inv(cfg, initial, s) && id in s.tasks && ask.id == second.id == id
    requires WellFounded(cfg, initial, s.log + [ask] + [second]) && Accounted(cfg, s')
    requires TaskAt(cfg, s.log + [ask, second], id, s.tasks[id].(pc := pc))
    requires s' == s.Goto(id, pc, [ask, second]).(tracker := s'.tracker)
    ensures Inv(cfg, initial, s')
  {
    assert s.log + [ask] + [second] == s.log + [ask, second];
    hide TaskAt, WellFounded, TasksAt, StoreKnown, Accounted;
    OthersKeep(cfg, s.tasks, s.log, id, s.tasks[id].(pc := pc), [ask, second]);
    StoreGrows(initial, s.cache, s.log, [ask, second]);
  }

  lemma {:induction false} ClockKeeps(cfg: Config, initial: Cache, s: State, id: nat, challenge: L402Challenge,
                                      now: nat)
    requires Inv(cfg, initial, s) && id in s.tasks && s.tasks[id].pc == Charging(challenge)
    ensures Inv(cfg, initial, OnClock(cfg, s, id, challenge, now))
  {
    var (ask, second, pc) := Decision(cfg, s, id, challenge, now);
    assert Accounted(cfg, s);
    DecisionJustified(cfg, initial, s, id, challenge, now);
    OnClockIs(cfg, s, id, challenge, now);
    hide Inv, TaskAt, WellFounded, Judge, Record, OnClock, Decision, Accounted;
    ClockAccounts(cfg, s, id, pc, ask, second);
    LogTwo(cfg, initial, s, id, pc, ask, second, OnClock(cfg, s, id, challenge, now));
  }

  lemma {:induction false} ClockAccounts(cfg: Config, s: State, id: nat, pc: Pc, ask: Fact, second: Fact)
    requires Accounted(cfg, s) && ask.Asked? && ask.verdict == Judge(CODE, cfg.budget, s.tracker, ask.call)
    requires id in s.tasks && !second.Asked? && !(second.Returned? && second.outcome.Bought?)
    ensures var t := if ask.verdict.Accepted? then Record(CODE, s.tracker, ask.call) else s.tracker;
            Accounted(cfg, s.Goto(id, pc, [ask, second]).(tracker := t))
  {
    hide Judge, Record;
    QuietFact(s.log, ask);
    QuietFact(s.log + [ask], second);
    assert s.log + [ask] + [second] == s.log + [ask, second];
    ExecPush(cfg.budget, Calls(s.log), ask.call);
    hide Exec, Calls, Records, Receipts;
  }

  lemma {:induction false} ExecPush(b: Budget, calls: seq<Call>, c: Call)
    ensures Exec(CODE, b, calls + [c]) == Next(CODE, b, Exec(CODE, b, calls), c)
  {
    assert (calls + [c])[..|calls|] == calls;
    hide Next;
  }

  lemma {:induction false} OnClockIs(cfg: Config, s: State, id: nat, challenge: L402Challenge, now: nat)
    requires id in s.tasks
    ensures var (ask, second, pc) := Decision(cfg, s, id, challenge, now);
            && ask.Asked? && ask.id == second.id == id
            && !second.Asked? && !(second.Returned? && second.outcome.Bought?)
            && ask.verdict == Judge(CODE, cfg.budget, s.tracker, ask.call)
            && OnClock(cfg, s, id, challenge, now) == s.Goto(id, pc, [ask, second]).(
                 tracker := if ask.verdict.Accepted? then Record(CODE, s.tracker, ask.call) else s.tracker)
  {
    hide Judge, Record;
  }

  /** The return of a paid response, once the payment is made. */
  lemma {:induction false} BoughtKeeps(cfg: Config, initial: Cache, s: State, id: nat, challenge: L402Challenge,
                                       payment: PaymentResult, status: nat)
    requires Inv(cfg, initial, s) && id in s.tasks && s.tasks[id].pc == Retrying(challenge, payment)
    requires status != PAYMENT_REQUIRED
    ensures var receipt := ReceiptOf(s.tasks[id].url, payment, status);
            Inv(cfg, initial, s.Return(id, Bought(receipt)).(receipts := s.receipts + [receipt]))
  {
    var task := s.tasks[id];
    assert TaskAt(cfg, s.log, id, task);
    var receipt := ReceiptOf(task.url, payment, status);
    var f := Returned(id, Bought(receipt));
    assert Justified(cfg, initial, s.log, f) by {
      assert Paid(id, task.url, challenge, payment) in s.log;
    }
    assert TaskAt(cfg, s.log + [f], id, task.(pc := Done(Bought(receipt))));
    hide Justified, TaskAt, Known, Exec, WellFounded, TasksAt, StoreKnown, Calls, Records, Receipts;
    PushFact(cfg, initial, s.log, f);
    OthersKeep(cfg, s.tasks, s.log, id, task.(pc := Done(Bought(receipt))), [f]);
    StoreGrows(initial, s.cache, s.log, [f]);
    QuietFact(s.log, f);
  }

  lemma {:induction false} RetryKeeps(cfg: Config, initial: Cache, s: State, id: nat, status: nat,
                                      header: Option<string>)
    requires Inv(cfg, initial, s) && id in s.tasks && s.tasks[id].pc.Retrying?
    ensures Inv(cfg, initial, Advance(cfg, s, id, HttpReply(status, header)))
  {
    hide Inv, Justified, Absent, OnClock, OnPlain, Cache.Put, Cache.Remove, Cache.Get;
    var f := Answered(id, status, header);
    var pc := s.tasks[id].pc;
    AnswerKeeps(cfg, initial, s, id, f);
    var s' := s.Note(f);
    InvTask(cfg, initial, s', id);
    if status == PAYMENT_REQUIRED {
      LogNone(cfg, initial, s', id, Revoking(pc.challenge, pc.payment));
    } else {
      BoughtKeeps(cfg, initial, s', id, pc.challenge, pc.payment, status);
    }
  }

  lemma {:induction false} CachedKeeps(cfg: Config, initial: Cache, s: State, id: nat, status: nat,
                                       header: Option<string>)
    requires Inv(cfg, initial, s) && id in s.tasks && s.tasks[id].pc.CachedTry?
    ensures Inv(cfg, initial, Advance(cfg, s, id, HttpReply(status, header)))
  {
    hide Inv, Justified, Absent, OnClock, OnPlain, Cache.Put, Cache.Remove, Cache.Get;
    var f := Answered(id, status, header);
    AnswerKeeps(cfg, initial, s, id, f);
    var s' := s.Note(f);
    InvTask(cfg, initial, s', id);
    if status != PAYMENT_REQUIRED {
      ReturnUnpaid(cfg, initial, s', id, Unpaid(status, true));
    } else {
      LogNone(cfg, initial, s', id, DropRejected);
    }
  }

  lemma {:induction false} StoringKeeps(cfg: Config, initial: Cache, s: State, id: nat, challenge: L402Challenge,
                                        payment: PaymentResult)
    requires Inv(cfg, initial, s) && id in s.tasks && s.tasks[id].pc == Storing(challenge, payment)
    ensures Inv(cfg, initial, Advance(cfg, s, id, StoreReply(true)))
  {
    hide Inv, OnClock, OnPlain, Cache.Put, Cache.Remove, Cache.Get;
    var url, token := s.tasks[id].url, TokenOf(challenge, payment);
    InvTask(cfg, initial, s, id);
    assert Paid(id, url, challenge, payment) in s.log;
    assert Known(initial, s.log, url, token);
    hide TaskAt, Known, Justified;
    StoreKeeps(cfg, initial, s, id, url, token);
    var s2 := s.(cache := s.cache.Put(url, token)).Note(Stored(id, url, token));
    SentKnown(cfg, initial, s2, id, url, token, Retrying(challenge, payment));
  }

  /** A known pair is stored. */
  lemma {:induction false} StoreKeeps(cfg: Config, initial: Cache, s: State, id: nat, url: string, token: Token)
    requires Inv(cfg, initial, s) && id in s.tasks && Known(initial, s.log, url, token)
    ensures var s' := s.(cache := s.cache.Put(url, token)).Note(Stored(id, url, token));
            Inv(cfg, initial, s') && Known(initial, s'.log, url, token)
  {
    hide Known, Cache.Put, TasksAt, WellFounded, Exec, Calls, Records, Receipts;
    PutKeeps(initial, s.cache, s.log, url, token);
    var s1 := s.(cache := s.cache.Put(url, token));
    assert Inv(cfg, initial, s1);
    hide Inv;
    NoteKeeps(cfg, initial, s1, id, Stored(id, url, token));
    KnownGrows(initial, s.log, [Stored(id, url, token)], url, token);
  }

  /** A known pair is sent by a request that has stored it. */
  lemma {:induction false} SentKnown(cfg: Config, initial: Cache, s: State, id: nat, url: string, token: Token, pc: Pc)
    requires Inv(cfg, initial, s) && id in s.tasks && Known(initial, s.log, url, token)
    requires s.tasks[id].pc.Storing? && pc == Retrying(s.tasks[id].pc.challenge, s.tasks[id].pc.payment)
    ensures Inv(cfg, initial, s.Goto(id, pc, [Sent(id, url, Some(token))]))
  {
    var f := Sent(id, url, Some(token));
    InvTask(cfg, initial, s, id);
    OtherStays(cfg, s.log, id, s.tasks[id], f);
    assert TaskAt(cfg, s.log + [f], id, s.tasks[id].(pc := pc));
    hide Inv, Known, TaskAt;
    LogOne(cfg, initial, s, id, pc, f);
  }

  lemma {:induction false} RevokeKeeps(cfg: Config, initial: Cache, s: State, id: nat)
    requires Inv(cfg, initial, s) && id in s.tasks && s.tasks[id].pc.Revoking?
    ensures Inv(cfg, initial, Advance(cfg, s, id, StoreReply(true)))
  {
    hide Inv, Justified, Absent, OnClock, OnPlain, Cache.Put, Cache.Remove, Cache.Get;
    var url := s.tasks[id].url;
    RemoveKeeps(cfg, initial, s, url);
    var s1 := s.(cache := s.cache.Remove(url));
    AnswerKeeps(cfg, initial, s1, id, Removed(id, url));
    ReturnUnpaid(cfg, initial, s1.Note(Removed(id, url)), id, Failure(RetryFailed));
  }

  lemma {:induction false} RefusedKeeps(cfg: Config, initial: Cache, s: State, id: nat)
    requires Inv(cfg, initial, s) && id in s.tasks && s.tasks[id].pc.Paying?
    ensures Inv(cfg, initial, Advance(cfg, s, id, PayError))
  {
    hide Inv, Justified, Absent, OnClock, OnPlain, Cache.Put, Cache.Remove, Cache.Get;
    AnswerKeeps(cfg, initial, s, id, Refused(id));
    ReturnUnpaid(cfg, initial, s.Note(Refused(id)), id, Failure(PaymentFailed));
  }

  lemma {:induction false} AdvanceKeeps(cfg: Config, initial: Cache, s: State, id: nat, reply: Reply)
    requires Inv(cfg, initial, s) && id in s.tasks
    ensures Inv(cfg, initial, Advance(cfg, s, id, reply))
  {
    hide Inv, OnClock, OnPlain, Cache.Put, Cache.Remove, Cache.Get;
    match (s.tasks[id].pc, reply)
    case (Lookup, StoreReply(ok)) => LookupKeeps(cfg, initial, s, id, ok);
    case (CachedTry(_), HttpReply(status, header)) => CachedKeeps(cfg, initial, s, id, status, header);
    case (DropRejected, StoreReply(ok)) => DropKeeps(cfg, initial, s, id, ok);
    case (PlainTry, HttpReply(status, header)) => PlainKeeps(cfg, initial, s, id, status, header);
    case (Charging(challenge), ClockReply(now)) => ClockKeeps(cfg, initial, s, id, challenge, now);
    case (Paying(challenge), PayReply(payment)) => PaidKeeps(cfg, initial, s, id, challenge, payment);
    case (Paying(_), PayError) => RefusedKeeps(cfg, initial, s, id);
    case (Storing(challenge, payment), StoreReply(ok)) =>
      if ok {
        StoringKeeps(cfg, initial, s, id, challenge, payment);
      } else {
        ReturnUnpaid(cfg, initial, s, id, Failure(StoreFailed));
      }
    case (Retrying(_, _), HttpReply(status, header)) => RetryKeeps(cfg, initial, s, id, status, header);
    case (Revoking(_, _), StoreReply(ok)) =>
      if ok {
        RevokeKeeps(cfg, initial, s, id);
      } else {
        ReturnUnpaid(cfg, initial, s, id, Failure(StoreFailed));
      }
    case (CachedTry(_), HttpError) => ReturnUnpaid(cfg, initial, s, id, Failure(HttpFailed));
    case (PlainTry, HttpError) => ReturnUnpaid(cfg, initial, s, id, Failure(HttpFailed));
    case (Retrying(_, _), HttpError) => ReturnUnpaid(cfg, initial, s, id, Failure(HttpFailed));
    case _ =>
  }

  lemma {:induction false} TaskOf(cfg: Config, s: State, id: nat)
    requires TasksAt(cfg, s.tasks, s.log) && id in s.tasks
    ensures TaskAt(cfg, s.log, id, s.tasks[id])
  {
  }

  lemma {:induction false} LookupKeeps(cfg: Config, initial: Cache, s: State, id: nat, ok: bool)
    requires Inv(cfg, initial, s) && id in s.tasks && s.tasks[id].pc.Lookup?
    ensures Inv(cfg, initial, Advance(cfg, s, id, StoreReply(ok)))
  {
    if !ok {
      ReturnUnpaid(cfg, initial, s, id, Failure(StoreFailed));
    } else {
      LookedUp(cfg, initial, s, id);
    }
    hide Inv;
  }

  lemma {:induction false} LookedUp(cfg: Config, initial: Cache, s: State, id: nat)
    requires Inv(cfg, initial, s) && id in s.tasks && s.tasks[id].pc.Lookup?
    ensures var url := s.tasks[id].url;
            match s.cache.Get(url)
            case Some(token) => Inv(cfg, initial, s.Goto(id, CachedTry(token), [Sent(id, url, Some(token))]))
            case None => Inv(cfg, initial, s.Goto(id, PlainTry, [Sent(id, url, None)]))
  {
    var task := s.tasks[id];
    assert TaskAt(cfg, s.log, id, task);
    var cached := s.cache.Get(task.url);
    var pc, f := if cached.Some? then CachedTry(cached.value) else PlainTry, Sent(id, task.url, cached);
    assert cached.Some? ==> Known(initial, s.log, task.url, cached.value);
    SendingKeeps(cfg, s.log, id, task, pc, f);
    hide WellFounded, Accounted, TasksAt, TaskAt, StoreKnown, Known;
    LogOne(cfg, initial, s, id, pc, f);
  }

  /** A send before any challenge leaves the request where it was. */
  lemma {:induction false} SendingKeeps(cfg: Config, log: seq<Fact>, id: nat, t: Task, pc: Pc, f: Fact)
    requires f.Sent? && TaskAt(cfg, log, id, t) && (t.pc.Lookup? || t.pc.DropRejected?)
    requires pc.CachedTry? || pc.PlainTry?
    ensures TaskAt(cfg, log + [f], id, t.(pc := pc))
  {
    forall k: Kind | !k.OtherKind? && Absent(log, id, k) ensures Absent(log + [f], id, k) {
    }
  }

  lemma {:induction false} DropKeeps(cfg: Config, initial: Cache, s: State, id: nat, ok: bool)
    requires Inv(cfg, initial, s) && id in s.tasks && s.tasks[id].pc.DropRejected?
    ensures Inv(cfg, initial, Advance(cfg, s, id, StoreReply(ok)))
  {
    hide Inv, OnClock, OnPlain, Cache.Put, Cache.Remove, Cache.Get, Justified;
    if !ok {
      ReturnUnpaid(cfg, initial, s, id, Failure(StoreFailed));
    } else {
      var url := s.tasks[id].url;
      var removed, f := Removed(id, url), Sent(id, url, None);
      RemoveKeeps(cfg, initial, s, url);
      var s1 := s.(cache := s.cache.Remove(url));
      AnswerKeeps(cfg, initial, s1, id, removed);
      var s2 := s1.Note(removed);
      InvTask(cfg, initial, s2, id);
      PlainSent(cfg, initial, s2, id, f);
    }
  }

  /** A plain send. */
  lemma {:induction false} PlainSent(cfg: Config, initial: Cache, s: State, id: nat, f: Fact)
    requires Inv(cfg, initial, s) && id in s.tasks && s.tasks[id].pc.DropRejected?
    requires f == Sent(id, s.tasks[id].url, None)
    ensures Inv(cfg, initial, s.Goto(id, PlainTry, [f]))
  {
    InvTask(cfg, initial, s, id);
    SendingKeeps(cfg, s.log, id, s.tasks[id], PlainTry, f);
    hide Inv, TaskAt;
    LogOne(cfg, initial, s, id, PlainTry, f);
  }

  lemma {:induction false} PlainKeeps(cfg: Config, initial: Cache, s: State, id: nat, status: nat,
                                      header: Option<string>)
    requires Inv(cfg, initial, s) && id in s.tasks && s.tasks[id].pc.PlainTry?
    ensures Inv(cfg, initial, OnPlain(cfg, s, id, status, header))
  {
    hide Parse, Inv, Justified;
    var f := Answered(id, status, header);
    AnswerKeeps(cfg, initial, s, id, f);
    var s' := s.Note(f);
    if status != PAYMENT_REQUIRED {
      ReturnUnpaid(cfg, initial, s', id, Unpaid(status, false));
    } else if header.None? {
      ReturnUnpaid(cfg, initial, s', id, Failure(MissingChallenge));
    } else {
      match Parse(cfg.isBase64, header.value)
      case Err(reason) => ReturnUnpaid(cfg, initial, s', id, Failure(BadChallenge(reason)));
      case Ok(challenge) =>
        assert f in s'.log;
        ChallengeKeeps(cfg, initial, s', id, header.value, challenge);
    }
  }

  lemma {:induction false} ChallengeKeeps(cfg: Config, initial: Cache, s: State, id: nat, text: string,
                                          challenge: L402Challenge)
    requires Inv(cfg, initial, s) && id in s.tasks && s.tasks[id].pc.PlainTry?
    requires Answered(id, PAYMENT_REQUIRED, Some(text)) in s.log && Parse(cfg.isBase64, text) == Ok(challenge)
    ensures var url := s.tasks[id].url;
            Inv(cfg, initial, s.Goto(id, Charging(challenge), [Challenged(id, url, challenge)]))
  {
    hide Parse;
    var f := Challenged(id, s.tasks[id].url, challenge);
    InvTask(cfg, initial, s, id);
    hide Inv;
    assert Justified(cfg, initial, s.log, f);
    ChallengeTask(cfg, s.log, id, s.tasks[id], challenge);
    hide TaskAt, Justified;
    LogOne(cfg, initial, s, id, Charging(challenge), f);
  }

  lemma {:induction false} ChallengeTask(cfg: Config, log: seq<Fact>, id: nat, t: Task, challenge: L402Challenge)
    requires t.pc.PlainTry? && TaskAt(cfg, log, id, t)
    ensures TaskAt(cfg, log + [Challenged(id, t.url, challenge)], id, t.(pc := Charging(challenge)))
  {
  }

  lemma {:induction false} PaidKeeps(cfg: Config, initial: Cache, s: State, id: nat, challenge: L402Challenge,
                                     payment: PaymentResult)
    requires Inv(cfg, initial, s) && id in s.tasks && s.tasks[id].pc == Paying(challenge)
    ensures Inv(cfg, initial, Advance(cfg, s, id, PayReply(payment)))
  {
    var task := s.tasks[id];
    assert TaskAt(cfg, s.log, id, task);
    LogOne(cfg, initial, s, id, Storing(challenge, payment), Paid(id, task.url, challenge, payment));
  }

  // ----- what a step logs -----

  /** What the answer to the plain send leads to. */
  function AfterPlain(cfg: Config, id: nat, url: string, status: nat, header: Option<string>): Fact {
    if status != PAYMENT_REQUIRED then Returned(id, Unpaid(status, false))
    else match header
      case None => Returned(id, Failure(MissingChallenge))
      case Some(text) =>
        match Parse(cfg.isBase64, text)
        case Err(reason) => Returned(id, Failure(BadChallenge(reason)))
        case Ok(challenge) => Challenged(id, url, challenge)
  }

  /** The reply that was awaited, and what it led to at once. */
  ghost function Logged(cfg: Config, s: State, id: nat, reply: Reply): seq<Fact>
    requires id in s.tasks
  {
    var url := s.tasks[id].url;
    match (s.tasks[id].pc, reply)
    case (Lookup, StoreReply(true)) => [Sent(id, url, s.cache.Get(url))]
    case (CachedTry(_), HttpReply(status, header)) =>
      if status == PAYMENT_REQUIRED then [Answered(id, status, header)]
      else [Answered(id, status, header), Returned(id, Unpaid(status, true))]
    case (DropRejected, StoreReply(true)) => [Removed(id, url), Sent(id, url, None)]
    case (PlainTry, HttpReply(status, header)) =>
      [Answered(id, status, header), AfterPlain(cfg, id, url, status, header)]
    case (Charging(challenge), ClockReply(now)) =>
      var (ask, second, _) := Decision(cfg, s, id, challenge, now);
      [ask, second]
    case (Paying(challenge), PayReply(payment)) => [Paid(id, url, challenge, payment)]
    case (Paying(_), PayError) => [Refused(id), Returned(id, Failure(PaymentFailed))]
    case (Storing(challenge, payment), StoreReply(true)) =>
      var token := TokenOf(challenge, payment);
      [Stored(id, url, token), Sent(id, url, Some(token))]
    case (Retrying(_, payment), HttpReply(status, header)) =>
      if status == PAYMENT_REQUIRED then [Answered(id, status, header)]
      else [Answered(id, status, header), Returned(id, Bought(ReceiptOf(url, payment, status)))]
    case (Revoking(_, _), StoreReply(true)) => [Removed(id, url), Returned(id, Failure(RetryFailed))]
    case (_, StoreReply(false)) =>
      if AwaitsStore(s.tasks[id].pc) then [Returned(id, Failure(StoreFailed))] else []
    case (_, HttpError) => if AwaitsServer(s.tasks[id].pc) then [Returned(id, Failure(HttpFailed))] else []
    case _ => []
  }

  predicate AwaitsStore(pc: Pc) {
    pc.Lookup? || pc.DropRejected? || pc.Storing? || pc.Revoking?
  }

  predicate AwaitsServer(pc: Pc) {
    pc.CachedTry? || pc.PlainTry? || pc.Retrying?
  }

  lemma {:induction false} PlainLogged(cfg: Config, s: State, id: nat, status: nat, header: Option<string>)
    requires id in s.tasks
    ensures OnPlain(cfg, s, id, status, header).log
         == s.log + [Answered(id, status, header), AfterPlain(cfg, id, s.tasks[id].url, status, header)]
  {
    hide Parse;
  }

  /** Every step logs exactly that: no awaited reply is lost or altered. */
  lemma {:induction false} AdvanceLogged(cfg: Config, s: State, id: nat, reply: Reply)
    requires id in s.tasks
    ensures Advance(cfg, s, id, reply).log == s.log + Logged(cfg, s, id, reply)
  {
    hide OnPlain, OnClock, Cache.Put, Cache.Remove, Cache.Get, AfterPlain, Decision;
    var pc := s.tasks[id].pc;
    if pc.PlainTry? && reply.HttpReply? {
      PlainLogged(cfg, s, id, reply.status, reply.wwwAuthenticate);
    } else if pc.Charging? && reply.ClockReply? {
      OnClockIs(cfg, s, id, pc.challenge, reply.now);
    } else if Logged(cfg, s, id, reply) == [] {
      assert s.log + [] == s.log;
    }
  }

  lemma {:induction false} LogEnds(log: seq<Fact>, facts: seq<Fact>, more: seq<Fact>)
    requires log + facts == log + more
    ensures facts == more
  {
    assert (log + facts)[|log|..] == facts && (log + more)[|log|..] == more;
  }

  lemma {:induction false} ApplyKeeps(cfg: Config, initial: Cache, s: State, event: Event)
    requires Inv(cfg, initial, s)
    ensures Inv(cfg, initial, Apply(cfg, s, event))
  {
    match event
    case Spawn(id, url, host) =>
      if id !in s.tasks {
        assert TaskAt(cfg, s.log, id, Task(url, host, Lookup));
      }
    case Step(id, reply) =>
      if id in s.tasks {
        AdvanceKeeps(cfg, initial, s, id, reply);
      }
    case Dropped(key) => RemoveKeeps(cfg, initial, s, key);
  }

  /** The history of every interleaving is justified fact by fact, and the store, the tracker and
      the receipts are functions of it. Since a prefix of a run is a run, this is an invariant. */
  lemma {:induction false} RunInv(cfg: Config, initial: Cache, events: seq<Event>)
    ensures Inv(cfg, initial, RunEvents(cfg, initial, events))
  {
    if |events| > 0 {
      RunInv(cfg, initial, events[..|events| - 1]);
      ApplyKeeps(cfg, initial, RunEvents(cfg, initial, events[..|events| - 1]), events[|events| - 1]);
    }
  }
}
