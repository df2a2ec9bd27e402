/** The main results about the engine, for every interleaving of every number of requests, every
    server, every backend, every clock and every outside removal from the store. */
module EngineTheorems {
  import opened Wrappers
  import opened TokenStore
  import opened Payment
  import opened Budget
  import opened L402Challenge
  import opened Engine
  import opened EngineLaws
  import BudgetLaws
  import Bolt11

  // ----- one record per payment, one payment per receipt -----

  lemma {:induction false} FactJustified(cfg: Config, initial: Cache, log: seq<Fact>, i: nat)
    requires WellFounded(cfg, initial, log) && i < |log|
    ensures WellFounded(cfg, initial, log[..i]) && Justified(cfg, initial, log[..i], log[i])
  {
    if i < |log| - 1 {
      FactJustified(cfg, initial, log[..|log| - 1], i);
      assert log[..|log| - 1][..i] == log[..i];
    }
  }

  /** No task is challenged, asks the budget, issues a payment, pays or returns twice. */
  lemma {:induction false} OncePerTask(cfg: Config, initial: Cache, log: seq<Fact>, i: nat, j: nat)
    requires WellFounded(cfg, initial, log) && i < j < |log|
    requires !KindOf(log[i]).OtherKind? && KindOf(log[i]) == KindOf(log[j])
    ensures log[i].id != log[j].id
  {
    FactJustified(cfg, initial, log, j);
    assert log[..j][i] == log[i];
  }

  /** The accepted record behind a payment, and where it stands. */
  lemma {:induction false} RecordOfPayment(cfg: Config, initial: Cache, log: seq<Fact>, i: nat)
    returns (asked: nat, challenged: nat)
    requires WellFounded(cfg, initial, log) && i < |log| && (log[i].Paid? || log[i].Issued?)
    ensures challenged < i && log[challenged] == Challenged(log[i].id, log[i].url, log[i].challenge)
    ensures asked < i && log[asked].Asked? && log[asked].id == log[i].id && log[asked].verdict.Accepted?
    ensures log[asked].call.amount == Bolt11.Charge(cfg.dec, log[i].challenge.invoice)
  {
    var issued := i;
    if log[i].Paid? {
      issued := IssueOfPayment(cfg, initial, log, i);
    }
    asked, challenged := RecordOfIssue(cfg, initial, log, issued);
  }

  lemma {:induction false} IssueOfPayment(cfg: Config, initial: Cache, log: seq<Fact>, i: nat) returns (issued: nat)
    requires WellFounded(cfg, initial, log) && i < |log| && log[i].Paid?
    ensures issued < i && log[issued] == Issued(log[i].id, log[i].url, log[i].challenge)
  {
    FactJustified(cfg, initial, log, i);
    hide WellFounded;
    issued :| 0 <= issued < i && log[..i][issued] == Issued(log[i].id, log[i].url, log[i].challenge);
  }

  lemma {:induction false} RecordOfIssue(cfg: Config, initial: Cache, log: seq<Fact>, i: nat)
    returns (asked: nat, challenged: nat)
    requires WellFounded(cfg, initial, log) && i < |log| && log[i].Issued?
    ensures challenged < i && log[challenged] == Challenged(log[i].id, log[i].url, log[i].challenge)
    ensures asked < i && log[asked].Asked? && log[asked].id == log[i].id && log[asked].verdict.Accepted?
    ensures log[asked].call.amount == Bolt11.Charge(cfg.dec, log[i].challenge.invoice)
  {
    FactJustified(cfg, initial, log, i);
    hide WellFounded, Bolt11.Charge;
    var f, before := log[i], log[..i];
    var call: Call :| Asked(f.id, call, Accepted) in before
                      && call.amount == Bolt11.Charge(cfg.dec, f.challenge.invoice);
    asked :| 0 <= asked < i && before[asked] == Asked(f.id, call, Accepted);
    challenged :| 0 <= challenged < i && before[challenged] == Challenged(f.id, f.url, f.challenge);
  }

  lemma {:induction false} PaymentOfReceipt(cfg: Config, initial: Cache, log: seq<Fact>, i: nat)
    returns (paid: nat)
    requires WellFounded(cfg, initial, log) && i < |log| && log[i].Returned? && log[i].outcome.Bought?
    ensures paid < i && log[paid].Paid? && log[paid].id == log[i].id
    ensures var r := log[i].outcome.receipt;
            r == ReceiptOf(log[paid].url, log[paid].payment, r.responseStatus) && r.responseStatus != PAYMENT_REQUIRED
  {
    FactJustified(cfg, initial, log, i);
    var f, before := log[i], log[..i];
    var url: string, challenge: L402Challenge, payment: PaymentResult, status: nat :|
      && Paid(f.id, url, challenge, payment) in before && status != PAYMENT_REQUIRED
      && f.outcome.receipt == ReceiptOf(url, payment, status);
    paid :| 0 <= paid < i && before[paid] == Paid(f.id, url, challenge, payment);
  }

  /** In every interleaving: each payment follows an accepted record of the same task for exactly
      its invoice's charge, each receipt follows a payment of the same task and repeats it, no two
      payments share a record and no two receipts a payment (a task has at most one of each), and
      the receipt list is exactly the paid returns in their order. */
  lemma {:induction false} PaymentsAreAccounted(cfg: Config, initial: Cache, events: seq<Event>)
    ensures var s := RunEvents(cfg, initial, events);
            && (forall i :: 0 <= i < |s.log| && s.log[i].Paid? ==>
                  exists j :: 0 <= j < i && s.log[j].Asked? && s.log[j].id == s.log[i].id
                    && s.log[j].verdict.Accepted?
                    && s.log[j].call.amount == Bolt11.Charge(cfg.dec, s.log[i].challenge.invoice))
            && (forall i :: 0 <= i < |s.log| && s.log[i].Returned? && s.log[i].outcome.Bought? ==>
                  exists j :: 0 <= j < i && s.log[j].Paid? && s.log[j].id == s.log[i].id
                    && s.log[i].outcome.receipt
                       == ReceiptOf(s.log[j].url, s.log[j].payment, s.log[i].outcome.receipt.responseStatus))
            && (forall i, j ::
                  0 <= i < j < |s.log| && !KindOf(s.log[i]).OtherKind? && KindOf(s.log[i]) == KindOf(s.log[j])
                  ==> s.log[i].id != s.log[j].id)
            && s.receipts == Receipts(s.log)
  {
    RunInv(cfg, initial, events);
    var log := RunEvents(cfg, initial, events).log;
    forall i | 0 <= i < |log| && log[i].Paid?
      ensures exists j :: 0 <= j < i && log[j].Asked? && log[j].id == log[i].id && log[j].verdict.Accepted?
                && log[j].call.amount == Bolt11.Charge(cfg.dec, log[i].challenge.invoice)
    {
      var j, _ := RecordOfPayment(cfg, initial, log, i);
    }
    forall i | 0 <= i < |log| && log[i].Returned? && log[i].outcome.Bought?
      ensures exists j :: 0 <= j < i && log[j].Paid? && log[j].id == log[i].id
                && log[i].outcome.receipt
                   == ReceiptOf(log[j].url, log[j].payment, log[i].outcome.receipt.responseStatus)
    {
      var j := PaymentOfReceipt(cfg, initial, log, i);
    }
    forall i, j | 0 <= i < j < |log| && !KindOf(log[i]).OtherKind? && KindOf(log[i]) == KindOf(log[j])
      ensures log[i].id != log[j].id
    {
      OncePerTask(cfg, initial, log, i, j);
    }
  }

  // ----- where tokens come from -----

  /** Every Authorization pair ever sent was in the store at the start or belongs to a challenge
      received earlier for that same url, whose invoice was then paid with that preimage; and so
      does every pair in the store, whatever was evicted, removed or overwritten meanwhile. */
  lemma {:induction false} TokensAreBought(cfg: Config, initial: Cache, events: seq<Event>)
    ensures var s := RunEvents(cfg, initial, events);
            && (forall i :: 0 <= i < |s.log| && s.log[i].Sent? && s.log[i].auth.Some? ==>
                  || initial.Get(s.log[i].url) == s.log[i].auth
                  || BoughtBefore(s.log, i, s.log[i].url, s.log[i].auth.value))
            && (forall url :: url in s.cache.tokens ==>
                  || initial.Get(url) == Some(s.cache.tokens[url])
                  || BoughtBefore(s.log, |s.log|, url, s.cache.tokens[url]))
  {
    RunInv(cfg, initial, events);
    var s := RunEvents(cfg, initial, events);
    forall i | 0 <= i < |s.log| && s.log[i].Sent? && s.log[i].auth.Some? && initial.Get(s.log[i].url) != s.log[i].auth
      ensures BoughtBefore(s.log, i, s.log[i].url, s.log[i].auth.value)
    {
      FactJustified(cfg, initial, s.log, i);
      BoughtWhen(cfg, initial, s.log, i, s.log[i].url, s.log[i].auth.value);
    }
    forall url | url in s.cache.tokens && initial.Get(url) != Some(s.cache.tokens[url])
      ensures BoughtBefore(s.log, |s.log|, url, s.cache.tokens[url])
    {
      assert s.log[..|s.log|] == s.log;
      BoughtWhen(cfg, initial, s.log, |s.log|, url, s.cache.tokens[url]);
    }
  }

  ghost predicate BoughtBefore(log: seq<Fact>, end: nat, url: string, token: Token)
    requires end <= |log|
  {
    exists c, p :: 0 <= c < p < end && log[p].Paid? && log[p].url == url
      && log[c] == Challenged(log[p].id, url, log[p].challenge)
      && token == TokenOf(log[p].challenge, log[p].payment)
  }

  lemma {:induction false} BoughtWhen(cfg: Config, initial: Cache, log: seq<Fact>, end: nat, url: string, token: Token)
    requires WellFounded(cfg, initial, log) && end <= |log| && BoughtToken(log[..end], url, token)
    ensures BoughtBefore(log, end, url, token)
  {
    var id: nat, challenge: L402Challenge, payment: PaymentResult :|
      Paid(id, url, challenge, payment) in log[..end] && token == TokenOf(challenge, payment);
    var p :| 0 <= p < end && log[..end][p] == Paid(id, url, challenge, payment);
    var _, c := RecordOfPayment(cfg, initial, log, p);
  }

  // ----- the budget under concurrency -----

  ghost function Recorded(log: seq<Fact>): nat {
    BudgetLaws.Sum(Records(log), BudgetLaws.Any())
  }

  /** Whatever the interleaving, the shared tracker is that of one sequential run of the budget
      calls in the order they were made, and `total_spent` is the sum of the records modulo 2^64. It
      is the sum itself, and the run the ideal one, of which everything proved of unbounded counters
      holds, exactly when the records (whatever was refused) sum to less than 2^64. */
  lemma {:induction false} TrackerIsSequential(cfg: Config, initial: Cache, events: seq<Event>)
    ensures var s := RunEvents(cfg, initial, events);
            && Exec(CODE, cfg.budget, Calls(s.log)) == Ledger(s.tracker, Records(s.log))
            && s.tracker.total == Wrap64(Recorded(s.log))
            && (s.tracker.total == Recorded(s.log) <==> Recorded(s.log) < U64)
            && (Exec(EXACT, cfg.budget, Calls(s.log)) == Ledger(s.tracker, Records(s.log)) <==> Recorded(s.log) < U64)
  {
    RunInv(cfg, initial, events);
    hide RunEvents, Calls, Records, WellFounded, TasksAt, StoreKnown;
    AccountsAdd(cfg, RunEvents(cfg, initial, events));
  }

  lemma {:induction false} AccountsAdd(cfg: Config, s: State)
    requires Accounted(cfg, s)
    ensures s.tracker.total == Wrap64(Recorded(s.log))
    ensures s.tracker.total == Recorded(s.log) <==> Recorded(s.log) < U64
    ensures Exec(EXACT, cfg.budget, Calls(s.log)) == Ledger(s.tracker, Records(s.log)) <==> Recorded(s.log) < U64
  {
    BudgetLaws.RunFaithful(CODE, cfg.budget, Calls(s.log));
    BudgetLaws.RecordsFitExactly(cfg.budget, Calls(s.log));
    hide Exec, Calls, Records, Receipts, BudgetLaws.Sum;
  }

  // ----- sums over tasks -----

  /** What the accepted records of some tasks charged. */
  ghost function Charged(log: seq<Fact>, ids: set<nat>): nat {
    if |log| == 0 then 0
    else
      var f := log[|log| - 1];
      Charged(log[..|log| - 1], ids) + if f.Asked? && f.verdict.Accepted? && f.id in ids then f.call.amount else 0
  }

  lemma {:induction false} ChargedAtMost(log: seq<Fact>, ids: set<nat>)
    ensures Charged(log, ids) <= Recorded(log)
  {
    if |log| > 0 {
      var before, f := log[..|log| - 1], log[|log| - 1];
      ChargedAtMost(before, ids);
      if f.Asked? {
        BudgetLaws.SumPush(Records(before), f.call, BudgetLaws.Any());
      }
    }
  }

  lemma {:induction false} ChargedUnion(log: seq<Fact>, ids: set<nat>, id: nat)
    requires id !in ids
    ensures Charged(log, ids + {id}) == Charged(log, ids) + Charged(log, {id})
  {
    if |log| > 0 {
      ChargedUnion(log[..|log| - 1], ids, id);
    }
  }

  lemma {:induction false} ChargedNothing(log: seq<Fact>, id: nat)
    requires Absent(log, id, AskKind)
    ensures Charged(log, {id}) == 0
  {
    if |log| > 0 {
      assert log[|log| - 1] in log;
      ChargedNothing(log[..|log| - 1], id);
    }
  }

  /** A task is charged once: what its one accepted record says. */
  lemma {:induction false} ChargedOnce(cfg: Config, initial: Cache, log: seq<Fact>, id: nat, call: Call)
    requires WellFounded(cfg, initial, log) && Asked(id, call, Accepted) in log
    ensures Charged(log, {id}) == call.amount
  {
    var before, f := log[..|log| - 1], log[|log| - 1];
    assert log == before + [f];
    if f == Asked(id, call, Accepted) {
      ChargedNothing(before, id);
    } else {
      assert Asked(id, call, Accepted) in before;
      ChargedOnce(cfg, initial, before, id, call);
    }
  }

  // ----- what leaves the wallet -----

  /** The decoder reads an amount off the invoice. */
  ghost predicate Readable(cfg: Config, invoice: string) {
    Bolt11.DecodeAmount(cfg.dec, invoice).Ok? && Bolt11.DecodeAmount(cfg.dec, invoice).value.Some?
  }

  /** The decoder's reading of an invoice (modulo 2^64 like all its arithmetic), 0 when there is none. */
  ghost function InvoiceMsat(cfg: Config, invoice: string): nat {
    match Bolt11.DecodeAmount(cfg.dec, invoice)
    case Ok(Some(amount)) => amount.millisatoshis
    case _ => 0
  }

  /** `out(id)` is what left the wallet, in millisatoshis, for the payment task `id` issued. */
  ghost function Outflow(log: seq<Fact>, out: nat -> nat): nat {
    if |log| == 0 then 0
    else
      var f := log[|log| - 1];
      Outflow(log[..|log| - 1], out) + if f.Issued? then out(f.id) else 0
  }

  /** What of it left for invoices without a readable amount, which are charged 0. */
  ghost function Unread(cfg: Config, log: seq<Fact>, out: nat -> nat): nat {
    if |log| == 0 then 0
    else
      var f := log[|log| - 1];
      Unread(cfg, log[..|log| - 1], out)
      + if f.Issued? && !Readable(cfg, f.challenge.invoice) then out(f.id) else 0
  }

  /** The requests whose payment of a readable invoice took something from the wallet. */
  ghost function Payers(cfg: Config, log: seq<Fact>, out: nat -> nat): set<nat> {
    set f | f in log && f.Issued? && Readable(cfg, f.challenge.invoice) && out(f.id) > 0 :: f.id
  }

  /** For a readable invoice the backend takes at most the amount read and the fee limit. Nothing is
      assumed of the others. */
  ghost predicate Honest(cfg: Config, log: seq<Fact>, out: nat -> nat) {
    forall f :: f in log && f.Issued? && Readable(cfg, f.challenge.invoice) ==>
      out(f.id) <= InvoiceMsat(cfg, f.challenge.invoice) + 1000 * cfg.maxFeeSats
  }

  lemma {:induction false} OutflowCovered(cfg: Config, initial: Cache, log: seq<Fact>, out: nat -> nat)
    requires WellFounded(cfg, initial, log) && Honest(cfg, log, out)
    ensures var payers := Payers(cfg, log, out);
            Outflow(log, out) <= 1000 * (Charged(log, payers) + |payers| * cfg.maxFeeSats) + Unread(cfg, log, out)
  {
    hide Bolt11.Charge, InvoiceMsat, Justified, Readable;
    if |log| > 0 {
      var before, f := log[..|log| - 1], log[|log| - 1];
      assert log == before + [f];
      OutflowCovered(cfg, initial, before, out);
      if f.Issued? && Readable(cfg, f.challenge.invoice) && out(f.id) > 0 {
        PayerCharged(cfg, initial, before, f, out);
        assert f in log;
        var payers := Payers(cfg, before, out);
        OneMorePayer(Outflow(before, out), Charged(before, payers), |payers|, cfg.maxFeeSats, out(f.id),
                     Bolt11.Charge(cfg.dec, f.challenge.invoice), Unread(cfg, before, out));
      } else {
        assert Payers(cfg, log, out) == Payers(cfg, before, out);
      }
    }
  }

  /** A payment that takes something adds its request, and that request's charge, to the payers. */
  lemma {:induction false} PayerCharged(cfg: Config, initial: Cache, before: seq<Fact>, f: Fact, out: nat -> nat)
    requires WellFounded(cfg, initial, before + [f]) && WellFounded(cfg, initial, before)
    requires f.Issued? && Readable(cfg, f.challenge.invoice) && out(f.id) > 0
    ensures var charge, payers := Bolt11.Charge(cfg.dec, f.challenge.invoice), Payers(cfg, before, out);
            var payers' := Payers(cfg, before + [f], out);
            && |payers'| == |payers| + 1
            && Charged(before + [f], payers') == Charged(before, payers) + charge
            && InvoiceMsat(cfg, f.challenge.invoice) <= 1000 * charge
  {
    hide Bolt11.Charge, InvoiceMsat, Readable;
    var log, payers := before + [f], Payers(cfg, before, out);
    assert log[..|before|] == before;
    assert f.id !in payers by { FactJustified(cfg, initial, log, |before|); }
    hide Justified, WellFounded;
    assert Payers(cfg, log, out) == payers + {f.id};
    var asked, _ := RecordOfPayment(cfg, initial, log, |before|);
    assert log[asked] in before;
    ChargedOnce(cfg, initial, before, f.id, log[asked].call);
    ChargedUnion(before, payers, f.id);
    MsatCovered(cfg, f.challenge.invoice);
  }

  lemma {:induction false} OneMorePayer(outflow: nat, charged: nat, payers: nat, fee: nat, taken: nat, amount: nat,
                                        unread: nat)
    requires outflow <= 1000 * (charged + payers * fee) + unread && taken <= 1000 * amount + 1000 * fee
    ensures outflow + taken <= 1000 * (charged + amount + (payers + 1) * fee) + unread
  {
    assert (payers + 1) * fee == payers * fee + fee;
  }

  /** The charge rounds the reading up. */
  lemma {:induction false} MsatCovered(cfg: Config, invoice: string)
    ensures var msat, charge := InvoiceMsat(cfg, invoice), Bolt11.Charge(cfg.dec, invoice);
            msat <= 1000 * charge && msat / 1000 <= charge <= msat / 1000 + 1
  {
    hide Bolt11.DecodeAmount;
  }

  /** Beyond what it paid for invoices without a readable amount, the wallet never loses more than
      the budget recorded plus one fee limit per payment; and what it recorded is `total_spent` as
      long as it fits in 64 bits. */
  lemma {:induction false} WalletCovered(cfg: Config, initial: Cache, events: seq<Event>, out: nat -> nat)
    requires Honest(cfg, RunEvents(cfg, initial, events).log, out)
    ensures var s := RunEvents(cfg, initial, events);
            var fees, unread := |Payers(cfg, s.log, out)| * cfg.maxFeeSats, Unread(cfg, s.log, out);
            && Outflow(s.log, out) <= 1000 * (Recorded(s.log) + fees) + unread
            && (Recorded(s.log) < U64 ==> Outflow(s.log, out) <= 1000 * (s.tracker.total + fees) + unread)
  {
    var s := RunEvents(cfg, initial, events);
    RunInv(cfg, initial, events);
    TrackerIsSequential(cfg, initial, events);
    hide RunEvents, Outflow, Charged, Recorded, Payers, Unread;
    OutflowCovered(cfg, initial, s.log, out);
    ChargedAtMost(s.log, Payers(cfg, s.log, out));
  }

  // ----- receipts against the budget -----

  ghost function ReceiptSum(receipts: seq<Receipt>): nat {
    if |receipts| == 0 then 0 else ReceiptSum(receipts[..|receipts| - 1]) + receipts[|receipts| - 1].amountSats
  }

  ghost function Buyers(log: seq<Fact>): set<nat> {
    set f | f in log && f.Returned? && f.outcome.Bought? :: f.id
  }

  /** The backend pays the amount read (0 when there is none) and reports it in satoshis rounded down. */
  ghost predicate ReportsFloor(cfg: Config, log: seq<Fact>) {
    forall f :: f in log && f.Paid? ==> f.payment.amountSats == InvoiceMsat(cfg, f.challenge.invoice) / 1000
  }

  lemma {:induction false} ReceiptsReconcile(cfg: Config, initial: Cache, log: seq<Fact>)
    requires WellFounded(cfg, initial, log) && ReportsFloor(cfg, log)
    ensures ReceiptSum(Receipts(log)) <= Charged(log, Buyers(log)) <= ReceiptSum(Receipts(log)) + |Receipts(log)|
  {
    if |log| > 0 {
      hide Bolt11.Charge, InvoiceMsat, Justified;
      var before, f := log[..|log| - 1], log[|log| - 1];
      assert log == before + [f];
      ReceiptsReconcile(cfg, initial, before);
      if f.Returned? && f.outcome.Bought? {
        BuyerCharged(cfg, initial, before, f);
        assert Receipts(log)[..|Receipts(log)| - 1] == Receipts(before);
      } else {
        assert Buyers(log) == Buyers(before);
        if f.Asked? && f.id in Buyers(before) {
          BuyerAsked(cfg, initial, before, f.id);
          FactJustified(cfg, initial, log, |log| - 1);
          FirstAsk(cfg, initial, before, f);
        }
      }
    }
  }

  lemma {:induction false} FirstAsk(cfg: Config, initial: Cache, before: seq<Fact>, f: Fact)
    requires Justified(cfg, initial, before, f) && f.Asked?
    ensures Absent(before, f.id, AskKind)
  {
  }

  /** A purchase adds its request, and that request's charge, to the buyers. */
  lemma {:induction false} BuyerCharged(cfg: Config, initial: Cache, before: seq<Fact>, f: Fact)
    requires WellFounded(cfg, initial, before + [f]) && WellFounded(cfg, initial, before)
    requires f.Returned? && f.outcome.Bought? && ReportsFloor(cfg, before + [f])
    ensures Charged(before, Buyers(before)) + f.outcome.receipt.amountSats
         <= Charged(before + [f], Buyers(before + [f]))
         <= Charged(before, Buyers(before)) + f.outcome.receipt.amountSats + 1
  {
    hide Bolt11.Charge, InvoiceMsat;
    var log, buyers := before + [f], Buyers(before);
    assert log[..|before|] == before;
    assert f.id !in buyers by { FactJustified(cfg, initial, log, |before|); }
    hide Justified, WellFounded;
    assert Buyers(log) == buyers + {f.id};
    var paid := PaymentOfReceipt(cfg, initial, log, |before|);
    var asked, _ := RecordOfPayment(cfg, initial, log, paid);
    assert log[asked] in before && log[paid] in log;
    ChargedOnce(cfg, initial, before, f.id, log[asked].call);
    ChargedUnion(before, buyers, f.id);
    MsatCovered(cfg, log[paid].challenge.invoice);
  }

  lemma {:induction false} BuyerAsked(cfg: Config, initial: Cache, log: seq<Fact>, id: nat)
    requires WellFounded(cfg, initial, log) && id in Buyers(log)
    ensures !Absent(log, id, AskKind)
  {
    var f :| f in log && f.Returned? && f.outcome.Bought? && f.id == id;
    var i :| 0 <= i < |log| && log[i] == f;
    var paid := PaymentOfReceipt(cfg, initial, log, i);
    var asked, _ := RecordOfPayment(cfg, initial, log, paid);
    assert log[asked] in log;
  }

  /** Receipts never add up to more than was recorded, and the rounding gap on the requests that got
      a receipt is at most one satoshi each. */
  lemma {:induction false} ReceiptsWithinSpent(cfg: Config, initial: Cache, events: seq<Event>)
    requires ReportsFloor(cfg, RunEvents(cfg, initial, events).log)
    ensures var s := RunEvents(cfg, initial, events);
            && ReceiptSum(s.receipts) <= Recorded(s.log)
            && (Recorded(s.log) < U64 ==> ReceiptSum(s.receipts) <= s.tracker.total)
            && ReceiptSum(s.receipts) <= Charged(s.log, Buyers(s.log)) <= ReceiptSum(s.receipts) + |s.receipts|
  {
    var s := RunEvents(cfg, initial, events);
    RunInv(cfg, initial, events);
    TrackerIsSequential(cfg, initial, events);
    ReceiptsReconcile(cfg, initial, s.log);
    ChargedAtMost(s.log, Buyers(s.log));
  }

  // ----- every request ends -----

  /** Steps a request may still take. */
  function Rank(pc: Pc): nat {
    match pc
    case Lookup => 9
    case CachedTry(_) => 8
    case DropRejected => 7
    case PlainTry => 6
    case Charging(_) => 5
    case Paying(_) => 4
    case Storing(_, _) => 3
    case Retrying(_, _) => 2
    case Revoking(_, _) => 1
    case Done(_) => 0
  }

  /** HTTP sends a request may still make. */
  function SendsLeft(pc: Pc): nat {
    match pc
    case Lookup => 3
    case CachedTry(_) => 2
    case DropRejected => 2
    case PlainTry => 1
    case Charging(_) => 1
    case Paying(_) => 1
    case Storing(_, _) => 1
    case _ => 0
  }

  ghost function Sends(log: seq<Fact>, id: nat): nat {
    if |log| == 0 then 0
    else Sends(log[..|log| - 1], id) + if log[|log| - 1].Sent? && log[|log| - 1].id == id then 1 else 0
  }

  ghost function PcOf(s: State, id: nat): Pc {
    if id in s.tasks then s.tasks[id].pc else Lookup
  }

  /** The events of a run that moved task `id`. */
  ghost function Moves(cfg: Config, initial: Cache, events: seq<Event>, id: nat): nat {
    if |events| == 0 then 0
    else
      var before, after := RunEvents(cfg, initial, events[..|events| - 1]), RunEvents(cfg, initial, events);
      Moves(cfg, initial, events[..|events| - 1], id) + if PcOf(before, id) != PcOf(after, id) then 1 else 0
  }

  lemma {:induction false} SendsConcat(log: seq<Fact>, facts: seq<Fact>, id: nat)
    ensures Sends(log + facts, id) == Sends(log, id) + Sends(facts, id)
  {
    if |facts| == 0 {
      assert log + facts == log;
    } else {
      var n := |facts| - 1;
      assert (log + facts)[..|log + facts| - 1] == log + facts[..n];
      SendsConcat(log, facts[..n], id);
    }
  }

  lemma {:induction false} SendsFew(facts: seq<Fact>, id: nat)
    requires |facts| <= 2
    ensures Sends(facts, id) == (if |facts| > 0 && facts[0].Sent? && facts[0].id == id then 1 else 0)
                                + if |facts| > 1 && facts[1].Sent? && facts[1].id == id then 1 else 0
  {
    if |facts| == 0 {
      assert facts == [];
    } else if |facts| == 1 {
      assert facts[..0] == [];
    } else {
      SendsFew(facts[..1], id);
    }
  }

  /** A step either changes nothing or brings its request closer to the end. */
  lemma {:induction false} AdvanceRank(cfg: Config, s: State, id: nat, reply: Reply, other: nat)
    requires id in s.tasks
    ensures var s' := Advance(cfg, s, id, reply);
            && s'.tasks.Keys == s.tasks.Keys
            && (s' == s || Rank(PcOf(s', id)) < Rank(PcOf(s, id)))
            && (other != id ==> PcOf(s', other) == PcOf(s, other))
  {
    hide Parse, Judge, Record, ChargeCall, Cache.Put, Cache.Remove, Cache.Get;
  }

  /** A step logs at most two facts of its own request. */
  lemma {:induction false} LoggedOwn(cfg: Config, s: State, id: nat, reply: Reply)
    requires id in s.tasks
    ensures |Logged(cfg, s, id, reply)| <= 2 && forall f :: f in Logged(cfg, s, id, reply) ==> f.id == id
  {
    hide AfterPlain, Decision;
    var pc := s.tasks[id].pc;
    if pc.PlainTry? && reply.HttpReply? {
      PlainSends(cfg, s, id, reply.status, reply.wwwAuthenticate);
    } else if pc.Charging? && reply.ClockReply? {
      ClockSends(cfg, s, id, pc.challenge, reply.now);
    }
  }

  function SentBy(facts: seq<Fact>, i: nat): nat {
    if i < |facts| && facts[i].Sent? then 1 else 0
  }

  lemma {:induction false} SendsPaidFor(cfg: Config, s: State, id: nat, reply: Reply)
    requires id in s.tasks
    ensures var s', facts := Advance(cfg, s, id, reply), Logged(cfg, s, id, reply);
            SentBy(facts, 0) + SentBy(facts, 1) + SendsLeft(PcOf(s', id)) <= SendsLeft(PcOf(s, id))
  {
    hide OnPlain, OnClock, Cache.Put, Cache.Remove, Cache.Get, Decision, AfterPlain;
    var pc := s.tasks[id].pc;
    if pc.PlainTry? && reply.HttpReply? {
      PlainSends(cfg, s, id, reply.status, reply.wwwAuthenticate);
    } else if pc.Charging? && reply.ClockReply? {
      ClockSends(cfg, s, id, pc.challenge, reply.now);
    }
  }

  /** And pays for its sends. */
  lemma {:induction false} AdvanceSends(cfg: Config, s: State, id: nat, reply: Reply)
    requires id in s.tasks
    ensures var s', facts := Advance(cfg, s, id, reply), Logged(cfg, s, id, reply);
            Sends(facts, id) + SendsLeft(PcOf(s', id)) <= SendsLeft(PcOf(s, id))
  {
    hide Advance, Logged, Sends;
    LoggedOwn(cfg, s, id, reply);
    SendsFew(Logged(cfg, s, id, reply), id);
    SendsPaidFor(cfg, s, id, reply);
  }

  lemma {:induction false} PlainSends(cfg: Config, s: State, id: nat, status: nat, header: Option<string>)
    requires id in s.tasks
    ensures var f := AfterPlain(cfg, id, s.tasks[id].url, status, header); f.id == id && !f.Sent?
    ensures SendsLeft(PcOf(OnPlain(cfg, s, id, status, header), id)) <= 1
  {
    hide Parse;
  }

  lemma {:induction false} ClockSends(cfg: Config, s: State, id: nat, challenge: L402Challenge, now: nat)
    requires id in s.tasks
    ensures var (ask, second, _) := Decision(cfg, s, id, challenge, now);
            ask.id == second.id == id && !ask.Sent? && !second.Sent?
    ensures SendsLeft(PcOf(OnClock(cfg, s, id, challenge, now), id)) <= 1
  {
    OnClockIs(cfg, s, id, challenge, now);
    hide OnClock, Judge, Record;
  }

  lemma {:induction false} OthersSends(facts: seq<Fact>, id: nat)
    requires forall f :: f in facts ==> f.id != id
    ensures Sends(facts, id) == 0
  {
    if |facts| > 0 {
      OthersSends(facts[..|facts| - 1], id);
    }
  }

  lemma {:induction false} AdvanceProgress(cfg: Config, s: State, id: nat, reply: Reply, other: nat)
    requires id in s.tasks
    ensures var s' := Advance(cfg, s, id, reply);
            && (s' == s || Rank(PcOf(s', id)) < Rank(PcOf(s, id)))
            && (other != id ==> PcOf(s', other) == PcOf(s, other))
            && Sends(s'.log, other) + SendsLeft(PcOf(s', other)) <= Sends(s.log, other) + SendsLeft(PcOf(s, other))
  {
    AdvanceRank(cfg, s, id, reply, other);
    AdvanceSends(cfg, s, id, reply);
    LoggedOwn(cfg, s, id, reply);
    AdvanceLogged(cfg, s, id, reply);
    var facts := Logged(cfg, s, id, reply);
    hide Advance, Logged, Sends;
    SendsConcat(s.log, facts, other);
    if other != id {
      OthersSends(facts, other);
    }
  }

  /** A request takes at most nine steps, sends at most three HTTP requests and issues at most one
      payment, however the run goes. */
  lemma {:induction false} RequestsEnd(cfg: Config, initial: Cache, events: seq<Event>, id: nat)
    ensures var s := RunEvents(cfg, initial, events);
            && Moves(cfg, initial, events, id) + Rank(PcOf(s, id)) <= 9
            && Sends(s.log, id) + SendsLeft(PcOf(s, id)) <= 3
  {
    if |events| > 0 {
      RequestsEnd(cfg, initial, events[..|events| - 1], id);
      var before, event := RunEvents(cfg, initial, events[..|events| - 1]), events[|events| - 1];
      if event.Step? && event.id in before.tasks {
        AdvanceProgress(cfg, before, event.id, event.reply, id);
      }
    }
  }

  // ----- what concurrency does not give -----

  lemma {:induction false} RunPush(cfg: Config, initial: Cache, events: seq<Event>, e: Event)
    ensures RunEvents(cfg, initial, events + [e]) == Apply(cfg, RunEvents(cfg, initial, events), e)
  {
    assert (events + [e])[..|events|] == events;
    hide Apply;
  }

  /** Tasks 0 and 1 ask for the same url, are both at `pc`, and the store has nothing for it. */
  ghost predicate BothAt(s: State, url: string, pc0: Pc, pc1: Pc) {
    && 0 in s.tasks && s.tasks[0] == Task(url, None, pc0)
    && 1 in s.tasks && s.tasks[1] == Task(url, None, pc1)
    && url !in s.cache.tokens
  }

  /** One step each. */
  lemma {:induction false} BothStep(cfg: Config, initial: Cache, events: seq<Event>, url: string, header: string,
                                    challenge: L402Challenge, pc: Pc, reply: Reply, pc': Pc)
    returns (events': seq<Event>)
    requires cfg.budget == Unlimited() && Parse(cfg.isBase64, header) == Ok(challenge)
    requires BothAt(RunEvents(cfg, initial, events), url, pc, pc)
    requires (pc, reply, pc') in [(Lookup, StoreReply(true), PlainTry),
                                  (PlainTry, HttpReply(402, Some(header)), Charging(challenge)),
                                  (Charging(challenge), ClockReply(0), Paying(challenge))]
    ensures BothAt(RunEvents(cfg, initial, events'), url, pc', pc')
  {
    hide Parse, Record, ChargeCall;
    var middle := events + [Step(0, reply)];
    events' := middle + [Step(1, reply)];
    RunPush(cfg, initial, events, Step(0, reply));
    assert BothAt(RunEvents(cfg, initial, middle), url, pc', pc);
    RunPush(cfg, initial, middle, Step(1, reply));
  }

  /** Two concurrent requests for one url may both pay, whatever the store's capacity: paying once
      needs requests that follow one another. */
  lemma {:induction false} ConcurrentRequestsBothPay(cfg: Config, initial: Cache, url: string, header: string,
      challenge: L402Challenge, first: PaymentResult, second: PaymentResult)
    returns (events: seq<Event>)
    requires cfg.budget == Unlimited() && Parse(cfg.isBase64, header) == Ok(challenge) && url !in initial.tokens
    ensures var log := RunEvents(cfg, initial, events).log;
            Paid(0, url, challenge, first) in log && Paid(1, url, challenge, second) in log
  {
    hide Parse;
    events := [Spawn(0, url, None)];
    RunPush(cfg, initial, [], Spawn(0, url, None));
    assert [] + [Spawn(0, url, None)] == events;
    RunPush(cfg, initial, events, Spawn(1, url, None));
    events := events + [Spawn(1, url, None)];
    events := BothStep(cfg, initial, events, url, header, challenge, Lookup, StoreReply(true), PlainTry);
    events := BothStep(cfg, initial, events, url, header, challenge, PlainTry, HttpReply(402, Some(header)),
        Charging(challenge));
    events := BothStep(cfg, initial, events, url, header, challenge, Charging(challenge), ClockReply(0),
        Paying(challenge));
    hide RunEvents;
    RunPush(cfg, initial, events, Step(0, PayReply(first)));
    events := events + [Step(0, PayReply(first))];
    RunPush(cfg, initial, events, Step(1, PayReply(second)));
    events := events + [Step(1, PayReply(second))];
  }
}
