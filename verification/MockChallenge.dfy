/** The challenges a mock server issues: an invoice printer and an authorization check. */
module MockChallenge {
  import opened Wrappers
  import opened Text
  import Bolt11

  /** The primitives outside the model. `hash` is SHA-256 from hex to hex, `None` when the
      argument is not hex; `macaroon` is the base64 of the JSON that holds a payment hash. */
  datatype Crypto = Crypto(hash: string -> Option<string>, macaroon: string -> string)

  datatype PendingChallenge = PendingChallenge(
    preimage: string, paymentHash: string, macaroon: string, invoice: string, amountSats: nat)
  {
    function ToWwwAuthenticate(): string {
      "L402 macaroon=\"" + macaroon + "\", invoice=\"" + invoice + "\""
    }

    predicate ValidatePreimage(crypto: Crypto, preimageHex: string) {
      crypto.hash(preimageHex) == Some(paymentHash)
    }

    predicate ValidateAuth(crypto: Crypto, presented: string, preimageHex: string) {
      presented == macaroon && ValidatePreimage(crypto, preimageHex)
    }
  }

  /** At most 20 characters of the hash, free of the BOLT11 separator. */
  function SafeHash(paymentHash: string): string {
    seq(Min(|paymentHash|, 20), i requires 0 <= i < Min(|paymentHash|, 20) =>
      if paymentHash[i] == '1' then 'x' else paymentHash[i])
  }

  /** Micro-bitcoin when whole, nano-bitcoin otherwise. */
  function PrintInvoice(amountSats: nat, paymentHash: string): string {
    if amountSats >= 100 && amountSats % 100 == 0 then
      "lnbc" + Decimal(amountSats / 100) + "u1mock" + SafeHash(paymentHash)
    else
      "lnbc" + Decimal(Mul64(amountSats, 10)) + "n1mock" + SafeHash(paymentHash)
  }

  /** `generate`, for a given random preimage. */
  function Generate(crypto: Crypto, preimage: string, amountSats: nat): PendingChallenge
    requires crypto.hash(preimage).Some?
  {
    var paymentHash := crypto.hash(preimage).value;
    PendingChallenge(preimage, paymentHash, crypto.macaroon(paymentHash),
                     PrintInvoice(amountSats, paymentHash), amountSats)
  }

  /** What the engine charges for a printed invoice, whatever the price and the hash:
      the price itself exactly when its millisatoshis fit in 64 bits. */
  lemma {:induction false} PrintedInvoiceCharge(dec: Bolt11.DecimalReader, amountSats: nat, paymentHash: string)
    requires amountSats < U64
    ensures Bolt11.Charge(dec, PrintInvoice(amountSats, paymentHash)) == amountSats <==> amountSats * 1000 < U64
  {
    hide Bolt11.Charge;
    if amountSats >= 100 && amountSats % 100 == 0 {
      MicroCharge(dec, amountSats / 100, paymentHash);
    } else {
      NanoCharge(dec, amountSats, paymentHash);
    }
    CeilingOfWrap(amountSats);
  }

  lemma {:induction false} MicroCharge(dec: Bolt11.DecimalReader, wholes: nat, paymentHash: string)
    requires wholes < U64
    ensures Bolt11.Charge(dec, "lnbc" + Decimal(wholes) + "u1mock" + SafeHash(paymentHash))
         == (Wrap64(wholes * 100 * 1000) + 999) / 1000
  {
    PrintedCharge(dec, Bolt11.Unit.Micro, "u", wholes, wholes * 100_000, paymentHash);
    assert "u" + "1mock" == "u1mock";
  }

  lemma {:induction false} NanoCharge(dec: Bolt11.DecimalReader, amountSats: nat, paymentHash: string)
    ensures Bolt11.Charge(dec, "lnbc" + Decimal(Mul64(amountSats, 10)) + "n1mock" + SafeHash(paymentHash))
         == (Wrap64(amountSats * 1000) + 999) / 1000
  {
    var wholes := Mul64(amountSats, 10);
    PrintedCharge(dec, Bolt11.Unit.Nano, "n", wholes, wholes * 100, paymentHash);
    assert "n" + "1mock" == "n1mock";
    NestedWrap(amountSats);
  }

  lemma {:induction false} PrintedCharge(
      dec: Bolt11.DecimalReader, unit: Bolt11.Unit, suffix: string, value: nat, msat: nat, paymentHash: string)
    requires value < U64 && unit.Suffix() == suffix && unit.Millisatoshis(value) == Some(msat)
    ensures Bolt11.Charge(dec, "lnbc" + Decimal(value) + (suffix + "1mock") + SafeHash(paymentHash))
         == (Wrap64(msat) + 999) / 1000
  {
    hide Bolt11.DecodeAmount;
    var data := "mock" + SafeHash(paymentHash);
    assert forall i :: 0 <= i < |SafeHash(paymentHash)| ==> SafeHash(paymentHash)[i] != '1';
    Bolt11.DecodeText(dec, "lnbc", Decimal(value), unit, data);
    assert suffix + "1mock" == suffix + "1" + "mock";
    assert "lnbc" + Decimal(value) + (suffix + "1mock") + SafeHash(paymentHash)
        == "lnbc" + Decimal(value) + suffix + "1" + data;
  }

  lemma {:induction false} CeilingOfWrap(amountSats: nat)
    ensures (Wrap64(amountSats * 1000) + 999) / 1000 == amountSats <==> amountSats * 1000 < U64
  {
    if amountSats * 1000 >= U64 {
      assert amountSats * 1000 % U64 <= amountSats * 1000 - U64;
    }
  }

  lemma {:induction false} NestedWrap(amountSats: nat)
    ensures Wrap64(Mul64(amountSats, 10) * 100) == Wrap64(amountSats * 1000)
  {
    var q := amountSats * 10 / U64;
    assert amountSats * 1000 == Mul64(amountSats, 10) * 100 + U64 * (100 * q);
  }
}
