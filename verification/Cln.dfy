/** The CLN REST backend: fee limit and msat/sat arithmetic of `pay_invoice`. */
module Cln {
  import opened Wrappers
  import opened Text
  import opened Payment

  /** The spellings of an msat value in CLN replies. */
  datatype MsatValue =
    | Number(value: nat)
    | Text(text: string)
    | Object(msat: nat)
  {
    function AsU64(): Option<nat> {
      match this
      case Number(value) => Some(value)
      case Object(msat) => Some(msat)
      case Text(text) =>
        match StripSuffix(text, "msat")
        case Some(number) => ParseU64(number)
        case None => ParseU64(text)
    }
  }

  datatype PayResponse = PayResponse(
    preimage: Option<string>, paymentHash: Option<string>,
    amountMsat: Option<MsatValue>, amountSentMsat: Option<MsatValue>, status: Option<string>)

  datatype ClnError = NotComplete | EmptyPreimage | EmptyHash

  /** `maxfee` in millisatoshis: `saturating_mul` by 1000. */
  function FeeLimitMsat(maxFeeSats: nat): nat {
    Min(maxFeeSats * 1000, U64 - 1)
  }

  function MsatOrZero(value: Option<MsatValue>): nat {
    match value
    case Some(v) => (match v.AsU64() case Some(msat) => msat case None => 0)
    case None => 0
  }

  function Settle(r: PayResponse): Result<PaymentResult, ClnError> {
    if r.status != Some("complete") then Err(NotComplete)
    else if r.preimage.None? then Err(EmptyPreimage)
    else if r.paymentHash.None? then Err(EmptyHash)
    else
      var amount, sent := MsatOrZero(r.amountMsat), MsatOrZero(r.amountSentMsat);
      Ok(PaymentResult(r.preimage.value, r.paymentHash.value, amount / 1000, SatSub(sent, amount) / 1000))
  }

  /** A payment is reported exactly for a completed reply with both halves of the proof, and it carries
      the reply's own preimage and hash, so they match whenever the reply's do. */
  lemma {:induction false} SettledPair(hash: string -> Option<string>, r: PayResponse)
    ensures Settle(r).Ok? <==> r.status == Some("complete") && r.preimage.Some? && r.paymentHash.Some?
    ensures Settle(r).Ok? ==>
      var p := Settle(r).value;
      && r.preimage == Some(p.preimage) && r.paymentHash == Some(p.paymentHash)
      && (hash(r.preimage.value) == r.paymentHash ==> hash(p.preimage) == Some(p.paymentHash))
    ensures Settle(r) == Err(NotComplete) <==> r.status != Some("complete")
    ensures Settle(r) == Err(EmptyPreimage) <==> r.status == Some("complete") && r.preimage.None?
    ensures Settle(r) == Err(EmptyHash) <==>
            r.status == Some("complete") && r.preimage.Some? && r.paymentHash.None?
  {
  }

  /** All three spellings of a 64-bit value, and the bare number, are read as that value. */
  lemma {:induction false} SpellingsAgree(msat: nat)
    requires msat < U64
    ensures Number(msat).AsU64() == Some(msat) && Object(msat).AsU64() == Some(msat)
    ensures Text(Decimal(msat) + "msat").AsU64() == Some(msat)
    ensures Text(Decimal(msat)).AsU64() == Some(msat)
  {
    ParseDecimal(msat);
    var number, suffixed := Decimal(msat), Decimal(msat) + "msat";
    assert suffixed[|suffixed| - 4..] == "msat" && suffixed[..|suffixed| - 4] == number;
    assert IsDigit(number[|number| - 1]);
  }

  /** A text that is no number, with or without its suffix, is read as 0, like an absent value. */
  lemma {:induction false} UnreadableMsat(text: string)
    requires ParseU64(text).None? && (|text| >= 4 ==> ParseU64(text[..|text| - 4]).None?)
    ensures MsatOrZero(Some(Text(text))) == 0 && MsatOrZero(None) == 0
  {
  }

  /** When the node sent at least the invoiced amount and honoured the saturated limit, the fee
      reported is within the configured limit, and amount plus fee is the sum sent rounded down,
      or one satoshi less. */
  lemma {:induction false} SettledFee(r: PayResponse, maxFeeSats: nat)
    requires maxFeeSats < U64 && Settle(r).Ok?
    requires MsatOrZero(r.amountMsat) <= MsatOrZero(r.amountSentMsat)
    requires MsatOrZero(r.amountSentMsat) - MsatOrZero(r.amountMsat) <= FeeLimitMsat(maxFeeSats)
    ensures var p, sent := Settle(r).value, MsatOrZero(r.amountSentMsat);
            && p.feeSats <= maxFeeSats
            && p.amountSats + p.feeSats <= sent / 1000 <= p.amountSats + p.feeSats + 1
  {
  }
}
