/** The accounts of an engine whose backend is LND or CLN: what these report is derived from what
    the node said, and so are the rounding hypotheses about them. */
module Backends {
  import opened Wrappers
  import opened Text
  import opened TokenStore
  import opened Payment
  import opened Engine
  import EngineLaws
  import opened EngineTheorems
  import MockChallenge
  import Bolt11
  import Lnd
  import Cln

  // ----- LND -----

  /** The payment is read off the update that the backward scan selects from some stream, which gives
      the amount. */
  ghost predicate LndReported(crypto: MockChallenge.Crypto, base64ToHex: string -> Option<string>, msat: nat,
                              payment: PaymentResult)
  {
    exists lines: seq<Lnd.Line>, i: nat ::
      && Lnd.Stops(lines, i) && lines[i].Some? && Lnd.StatesAmount(lines[i].value.Update(), msat)
      && Lnd.Settle(crypto, base64ToHex, lines[i].value.Update()) == Ok(payment)
  }

  /** It is read off an update that gives a fee within the limit asked for. */
  ghost predicate LndLimited(cfg: Config, crypto: MockChallenge.Crypto, base64ToHex: string -> Option<string>,
                             payment: PaymentResult)
  {
    exists u: Lnd.PaymentUpdate, fee: nat ::
      && Lnd.Settle(crypto, base64ToHex, u) == Ok(payment)
      && Lnd.StatesFee(u, fee) && fee <= 1000 * cfg.maxFeeSats && fee < U64
  }

  /** Every payment of the history is reported by LND, for what its invoice states. */
  ghost predicate PaidByLnd(cfg: Config, crypto: MockChallenge.Crypto, base64ToHex: string -> Option<string>,
                            log: seq<Fact>)
  {
    forall f :: f in log && f.Paid? ==>
      LndReported(crypto, base64ToHex, InvoiceMsat(cfg, f.challenge.invoice), f.payment)
  }

  /** The node honours the fee limit. */
  ghost predicate LimitedByLnd(cfg: Config, crypto: MockChallenge.Crypto, base64ToHex: string -> Option<string>,
                               log: seq<Fact>)
  {
    forall f :: f in log && f.Paid? ==> LndLimited(cfg, crypto, base64ToHex, f.payment)
  }

  lemma {:induction false} LndFloor(crypto: MockChallenge.Crypto, base64ToHex: string -> Option<string>, msat: nat,
                                    payment: PaymentResult)
    requires msat < U64 && LndReported(crypto, base64ToHex, msat, payment)
    ensures payment.amountSats == msat / 1000
  {
    var lines: seq<Lnd.Line>, i: nat :|
      && Lnd.Stops(lines, i) && lines[i].Some? && Lnd.StatesAmount(lines[i].value.Update(), msat)
      && Lnd.Settle(crypto, base64ToHex, lines[i].value.Update()) == Ok(payment);
    Lnd.SettledPayment(crypto, base64ToHex, lines[i].value.Update(), msat, 0);
  }

  lemma {:induction false} LndFee(cfg: Config, crypto: MockChallenge.Crypto, base64ToHex: string -> Option<string>,
                                  payment: PaymentResult)
    requires LndLimited(cfg, crypto, base64ToHex, payment)
    ensures payment.feeSats <= cfg.maxFeeSats
  {
    var u: Lnd.PaymentUpdate, fee: nat :|
      && Lnd.Settle(crypto, base64ToHex, u) == Ok(payment)
      && Lnd.StatesFee(u, fee) && fee <= 1000 * cfg.maxFeeSats && fee < U64;
    Lnd.SettledPayment(crypto, base64ToHex, u, 0, fee);
  }

  lemma {:induction false} InvoiceBounded(cfg: Config, invoice: string)
    ensures InvoiceMsat(cfg, invoice) < U64
  {
    Bolt11.DecodeBounded(cfg.dec, invoice);
    hide Bolt11.DecodeAmount;
  }

  /** An LND backend rounds down. */
  lemma {:induction false} LndReportsFloor(cfg: Config, crypto: MockChallenge.Crypto,
                                           base64ToHex: string -> Option<string>, log: seq<Fact>)
    requires PaidByLnd(cfg, crypto, base64ToHex, log)
    ensures ReportsFloor(cfg, log)
  {
    hide InvoiceMsat, LndReported;
    forall f | f in log && f.Paid? ensures f.payment.amountSats == InvoiceMsat(cfg, f.challenge.invoice) / 1000 {
      InvoiceBounded(cfg, f.challenge.invoice);
      LndFloor(crypto, base64ToHex, InvoiceMsat(cfg, f.challenge.invoice), f.payment);
    }
  }

  // ----- CLN -----

  /** The spellings in which a node gives an amount. */
  predicate ClnStates(value: Option<Cln.MsatValue>, msat: nat) {
    value in {Some(Cln.Number(msat)), Some(Cln.Object(msat)), Some(Cln.Text(Decimal(msat))),
              Some(Cln.Text(Decimal(msat) + "msat"))}
  }

  /** The payment is read off a reply that gives the amount, and the sum sent in any spelling: at
      least the amount, and within the limit asked for. */
  ghost predicate ClnReported(cfg: Config, msat: nat, sent: nat, payment: PaymentResult) {
    exists r: Cln.PayResponse ::
      && Cln.Settle(r) == Ok(payment)
      && ClnStates(r.amountMsat, msat) && ClnStates(r.amountSentMsat, sent)
      && msat <= sent <= msat + Cln.FeeLimitMsat(cfg.maxFeeSats)
  }

  /** Every payment of the history is reported by CLN, for what its invoice states; `sent(id)` is
      what the node sent for request `id`. */
  ghost predicate PaidByCln(cfg: Config, sent: nat -> nat, log: seq<Fact>) {
    forall f :: f in log && f.Paid? ==>
      sent(f.id) < U64 && ClnReported(cfg, InvoiceMsat(cfg, f.challenge.invoice), sent(f.id), f.payment)
  }

  lemma {:induction false} ClnRead(value: Option<Cln.MsatValue>, msat: nat)
    requires msat < U64 && ClnStates(value, msat)
    ensures Cln.MsatOrZero(value) == msat
  {
    Cln.SpellingsAgree(msat);
    hide Decimal, Cln.MsatValue.AsU64;
  }

  lemma {:induction false} ClnFloor(cfg: Config, msat: nat, sent: nat, p: PaymentResult)
    requires msat < U64 && sent < U64 && cfg.maxFeeSats < U64 && ClnReported(cfg, msat, sent, p)
    ensures p.amountSats == msat / 1000 && p.feeSats <= cfg.maxFeeSats
    ensures p.amountSats + p.feeSats <= sent / 1000 <= p.amountSats + p.feeSats + 1
  {
    var r: Cln.PayResponse :|
      && Cln.Settle(r) == Ok(p)
      && ClnStates(r.amountMsat, msat) && ClnStates(r.amountSentMsat, sent)
      && msat <= sent <= msat + Cln.FeeLimitMsat(cfg.maxFeeSats);
    ClnRead(r.amountMsat, msat);
    ClnRead(r.amountSentMsat, sent);
    Cln.SettledFee(r, cfg.maxFeeSats);
    hide ClnStates, Cln.MsatOrZero;
  }

  /** A CLN backend rounds down. */
  lemma {:induction false} ClnReportsFloor(cfg: Config, sent: nat -> nat, log: seq<Fact>)
    requires cfg.maxFeeSats < U64 && PaidByCln(cfg, sent, log)
    ensures ReportsFloor(cfg, log)
  {
    hide InvoiceMsat, ClnReported;
    forall f | f in log && f.Paid? ensures f.payment.amountSats == InvoiceMsat(cfg, f.challenge.invoice) / 1000 {
      InvoiceBounded(cfg, f.challenge.invoice);
      ClnFloor(cfg, InvoiceMsat(cfg, f.challenge.invoice), sent(f.id), f.payment);
    }
  }

  // ----- their receipts -----

  /** What the receipts of an engine are worth, against its records. */
  ghost predicate ReceiptsReconciled(s: State) {
    && ReceiptSum(s.receipts) <= Recorded(s.log)
    && (Recorded(s.log) < U64 ==> ReceiptSum(s.receipts) <= s.tracker.total)
    && ReceiptSum(s.receipts) <= Charged(s.log, Buyers(s.log)) <= ReceiptSum(s.receipts) + |s.receipts|
  }

  /** The amounts and fees of the receipts. */
  ghost function CostSum(receipts: seq<Receipt>): nat {
    if |receipts| == 0 then 0
    else
      var r := receipts[|receipts| - 1];
      CostSum(receipts[..|receipts| - 1]) + r.amountSats + r.feeSats
  }

  lemma {:induction false} CostsBounded(receipts: seq<Receipt>, fee: nat)
    requires forall r :: r in receipts ==> r.feeSats <= fee
    ensures CostSum(receipts) <= ReceiptSum(receipts) + |receipts| * fee
  {
    if |receipts| > 0 {
      CostsBounded(receipts[..|receipts| - 1], fee);
      assert |receipts| * fee == (|receipts| - 1) * fee + fee;
    }
  }

  lemma {:induction false} ReceiptReturned(log: seq<Fact>, r: Receipt) returns (i: nat)
    requires r in EngineLaws.Receipts(log)
    ensures i < |log| && log[i].Returned? && log[i].outcome == Bought(r)
  {
    var n := |log| - 1;
    if log[n].Returned? && log[n].outcome == Bought(r) {
      i := n;
    } else {
      i := ReceiptReturned(log[..n], r);
    }
  }

  /** Fees within the limit of the configuration, and what follows. */
  ghost predicate FeesWithin(cfg: Config, s: State) {
    && (forall r :: r in s.receipts ==> r.feeSats <= cfg.maxFeeSats)
    && CostSum(s.receipts) <= Recorded(s.log) + |s.receipts| * cfg.maxFeeSats
  }

  lemma {:induction false} ReceiptsCost(cfg: Config, initial: Cache, events: seq<Event>)
    requires var s := RunEvents(cfg, initial, events);
             ReportsFloor(cfg, s.log) && forall f :: f in s.log && f.Paid? ==> f.payment.feeSats <= cfg.maxFeeSats
    ensures ReceiptsReconciled(RunEvents(cfg, initial, events)) && FeesWithin(cfg, RunEvents(cfg, initial, events))
  {
    var s := RunEvents(cfg, initial, events);
    ReceiptsWithinSpent(cfg, initial, events);
    EngineLaws.RunInv(cfg, initial, events);
    hide RunEvents, ReceiptSum, Charged, Recorded, Buyers, ReportsFloor;
    forall r | r in s.receipts ensures r.feeSats <= cfg.maxFeeSats {
      var i := ReceiptReturned(s.log, r);
      var paid := PaymentOfReceipt(cfg, initial, s.log, i);
      assert s.log[paid] in s.log;
    }
    CostsBounded(s.receipts, cfg.maxFeeSats);
  }

  /** With LND, over every interleaving: receipts sum to at most what was recorded, and the gap on
      the requests that got one is at most one satoshi each; when the node honours the fee limit,
      every receipt's fee is within it, and amounts and fees together are at most the records plus
      one limit per receipt. */
  lemma {:induction false} LndReceipts(cfg: Config, initial: Cache, events: seq<Event>, crypto: MockChallenge.Crypto,
                                       base64ToHex: string -> Option<string>)
    requires PaidByLnd(cfg, crypto, base64ToHex, RunEvents(cfg, initial, events).log)
    ensures ReceiptsReconciled(RunEvents(cfg, initial, events))
    ensures LimitedByLnd(cfg, crypto, base64ToHex, RunEvents(cfg, initial, events).log) ==>
              FeesWithin(cfg, RunEvents(cfg, initial, events))
  {
    var log := RunEvents(cfg, initial, events).log;
    LndReportsFloor(cfg, crypto, base64ToHex, log);
    ReceiptsWithinSpent(cfg, initial, events);
    hide RunEvents, LndReported, LndLimited, InvoiceMsat, ReportsFloor;
    if LimitedByLnd(cfg, crypto, base64ToHex, log) {
      forall f | f in log && f.Paid? ensures f.payment.feeSats <= cfg.maxFeeSats {
        LndFee(cfg, crypto, base64ToHex, f.payment);
      }
      ReceiptsCost(cfg, initial, events);
    }
  }

  /** With CLN likewise. */
  lemma {:induction false} ClnReceipts(cfg: Config, initial: Cache, events: seq<Event>, sent: nat -> nat)
    requires cfg.maxFeeSats < U64 && PaidByCln(cfg, sent, RunEvents(cfg, initial, events).log)
    ensures ReceiptsReconciled(RunEvents(cfg, initial, events)) && FeesWithin(cfg, RunEvents(cfg, initial, events))
  {
    var log := RunEvents(cfg, initial, events).log;
    ClnReportsFloor(cfg, sent, log);
    hide RunEvents, ClnReported, InvoiceMsat;
    forall f | f in log && f.Paid? ensures f.payment.feeSats <= cfg.maxFeeSats {
      InvoiceBounded(cfg, f.challenge.invoice);
      ClnFloor(cfg, InvoiceMsat(cfg, f.challenge.invoice), sent(f.id), f.payment);
    }
    ReceiptsCost(cfg, initial, events);
  }

  // ----- proofs of payment -----

  /** Every payment of the history carries a preimage of its payment hash. */
  ghost predicate PaymentsMatch(hash: string -> Option<string>, log: seq<Fact>) {
    forall f :: f in log && f.Paid? ==> hash(f.payment.preimage) == Some(f.payment.paymentHash)
  }

  /** So does every receipt; and every pair sent or stored was there at the start, or was bought with a
      payment whose preimage it is and whose hash that is. */
  ghost predicate Proven(hash: string -> Option<string>, initial: Cache, s: State) {
    && (forall r :: r in s.receipts ==> hash(r.preimage) == Some(r.paymentHash))
    && (forall f :: f in s.log && f.Sent? && f.auth.Some? && initial.Get(f.url) != f.auth ==>
          ProvenPair(hash, s.log, f.auth.value))
    && (forall url :: url in s.cache.tokens && initial.Get(url) != Some(s.cache.tokens[url]) ==>
          ProvenPair(hash, s.log, s.cache.tokens[url]))
  }

  ghost predicate ProvenPair(hash: string -> Option<string>, log: seq<Fact>, token: Token) {
    exists f :: f in log && f.Paid? && token == (f.challenge.macaroon, f.payment.preimage)
      && hash(token.1) == Some(f.payment.paymentHash)
  }

  lemma {:induction false} BoughtProven(hash: string -> Option<string>, log: seq<Fact>, end: nat, url: string,
                                        token: Token)
    requires end <= |log| && PaymentsMatch(hash, log) && BoughtBefore(log, end, url, token)
    ensures ProvenPair(hash, log, token)
  {
    var c, p :| 0 <= c < p < end && log[p].Paid? && log[p].url == url
      && log[c] == Challenged(log[p].id, url, log[p].challenge)
      && token == TokenOf(log[p].challenge, log[p].payment);
    assert log[p] in log;
  }

  lemma {:induction false} MatchProves(cfg: Config, initial: Cache, events: seq<Event>, hash: string -> Option<string>)
    requires PaymentsMatch(hash, RunEvents(cfg, initial, events).log)
    ensures Proven(hash, initial, RunEvents(cfg, initial, events))
  {
    var s := RunEvents(cfg, initial, events);
    TokensAreBought(cfg, initial, events);
    EngineLaws.RunInv(cfg, initial, events);
    hide RunEvents, BoughtBefore, ProvenPair;
    forall r | r in s.receipts ensures hash(r.preimage) == Some(r.paymentHash) {
      var i := ReceiptReturned(s.log, r);
      var paid := PaymentOfReceipt(cfg, initial, s.log, i);
      assert s.log[paid] in s.log;
    }
    forall f | f in s.log && f.Sent? && f.auth.Some? && initial.Get(f.url) != f.auth
      ensures ProvenPair(hash, s.log, f.auth.value)
    {
      var i :| 0 <= i < |s.log| && s.log[i] == f;
      BoughtProven(hash, s.log, i, f.url, f.auth.value);
    }
    forall url | url in s.cache.tokens && initial.Get(url) != Some(s.cache.tokens[url])
      ensures ProvenPair(hash, s.log, s.cache.tokens[url])
    {
      BoughtProven(hash, s.log, |s.log|, url, s.cache.tokens[url]);
    }
  }

  /** Every payment is reported by LND, in whatever update. */
  ghost predicate SettledByLnd(crypto: MockChallenge.Crypto, base64ToHex: string -> Option<string>, log: seq<Fact>) {
    forall f :: f in log && f.Paid? ==>
      exists u: Lnd.PaymentUpdate :: Lnd.Settle(crypto, base64ToHex, u) == Ok(f.payment)
  }

  /** With LND, over every interleaving, every pair bought and every receipt proves its payment, even if
      the node lies: the backend checks. */
  lemma {:induction false} LndProofs(cfg: Config, initial: Cache, events: seq<Event>, crypto: MockChallenge.Crypto,
                                     base64ToHex: string -> Option<string>)
    requires SettledByLnd(crypto, base64ToHex, RunEvents(cfg, initial, events).log)
    ensures Proven(crypto.hash, initial, RunEvents(cfg, initial, events))
  {
    var log := RunEvents(cfg, initial, events).log;
    hide RunEvents, Lnd.Settle, Proven;
    forall f | f in log && f.Paid? ensures crypto.hash(f.payment.preimage) == Some(f.payment.paymentHash) {
      var u: Lnd.PaymentUpdate :| Lnd.Settle(crypto, base64ToHex, u) == Ok(f.payment);
      Lnd.SettledExactly(crypto, base64ToHex, u);
    }
    MatchProves(cfg, initial, events, crypto.hash);
  }

  /** Every payment is reported by CLN, in a reply whose preimage is one of its payment hash. */
  ghost predicate SettledByCln(hash: string -> Option<string>, log: seq<Fact>) {
    forall f :: f in log && f.Paid? ==>
      exists r: Cln.PayResponse ::
        Cln.Settle(r) == Ok(f.payment) && r.preimage.Some? && hash(r.preimage.value) == r.paymentHash
  }

  /** With CLN likewise, when the node replies with matching pairs: the backend does not check. */
  lemma {:induction false} ClnProofs(cfg: Config, initial: Cache, events: seq<Event>, hash: string -> Option<string>)
    requires SettledByCln(hash, RunEvents(cfg, initial, events).log)
    ensures Proven(hash, initial, RunEvents(cfg, initial, events))
  {
    var log := RunEvents(cfg, initial, events).log;
    hide RunEvents, Cln.Settle, Proven;
    forall f | f in log && f.Paid? ensures hash(f.payment.preimage) == Some(f.payment.paymentHash) {
      var r: Cln.PayResponse :|
        Cln.Settle(r) == Ok(f.payment) && r.preimage.Some? && hash(r.preimage.value) == r.paymentHash;
      Cln.SettledPair(hash, r);
    }
    MatchProves(cfg, initial, events, hash);
  }
}
