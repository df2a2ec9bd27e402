/** The LND REST backend: choosing an update from the payment stream, and reading it. */
module Lnd {
  import opened Wrappers
  import opened Text
  import opened Payment
  import MockChallenge

  /** A payment update in either spelling of its field names; absent fields are `None`. */
  datatype PaymentUpdate = PaymentUpdate(
    status: Option<string>,
    paymentPreimage: Option<string>, paymentPreimageCamel: Option<string>,
    paymentHash: Option<string>, paymentHashCamel: Option<string>,
    valueSat: Option<string>, valueSatCamel: Option<string>,
    valueMsat: Option<string>, valueMsatCamel: Option<string>,
    feeSat: Option<string>, feeSatCamel: Option<string>,
    feeMsat: Option<string>, feeMsatCamel: Option<string>,
    failureReason: Option<string>)
  {
    predicate IsSucceeded() {
      status == Some("SUCCEEDED")
    }

    predicate IsFailed() {
      status == Some("FAILED")
    }

    function AmountSats(): nat {
      Sats(Or(valueMsat, valueMsatCamel), Or(valueSat, valueSatCamel))
    }

    function FeeSats(): nat {
      Sats(Or(feeMsat, feeMsatCamel), Or(feeSat, feeSatCamel))
    }

    /** What is reported when no update succeeded and this one is the last. */
    function Reason(): string {
      GetOr(if IsFailed() then Or(failureReason, status) else status, "unknown")
    }
  }

  function Or<T>(a: Option<T>, b: Option<T>): Option<T> {
    if a.Some? then a else b
  }

  function GetOr<T>(a: Option<T>, default: T): T {
    match a case Some(value) => value case None => default
  }

  function ParseOrZero(text: string): nat {
    GetOr(ParseU64(text), 0)
  }

  /** Millisatoshis rounded down when given, else satoshis, else 0. */
  function Sats(msat: Option<string>, sat: Option<string>): nat {
    match msat
    case Some(text) => ParseOrZero(text) / 1000
    case None => match sat case Some(text) => ParseOrZero(text) case None => 0
  }

  /** A line of the stream: the update may be wrapped in `result` or flat. */
  datatype SendPaymentResponse = SendPaymentResponse(result: Option<PaymentUpdate>, flat: PaymentUpdate) {
    function Update(): PaymentUpdate {
      GetOr(result, flat)
    }
  }

  /** A non-blank line, `None` when it is not a payment response. */
  type Line = Option<SendPaymentResponse>

  datatype Scanned =
    | EmptyStream
    | Unparsable
    | Selected(update: PaymentUpdate)
    | NotPaid(reason: string)

  /** The update a line carries: the wrapped one, or else the flat one. */
  ghost function Carried(line: SendPaymentResponse): PaymentUpdate {
    if line.result.Some? then line.result.value else line.flat
  }

  /** A line the scan passes over: it can be read, and does not say SUCCEEDED. */
  ghost predicate Quiet(line: Line) {
    line.Some? && Carried(line.value).status != Some("SUCCEEDED")
  }

  /** The reason reported for a payment that did not succeed: that of a FAILED update, if it gives one,
      and otherwise the status. */
  ghost predicate Reports(u: PaymentUpdate, reason: string) {
    if u.status == Some("FAILED") && u.failureReason.Some? then reason == u.failureReason.value
    else if u.status.Some? then reason == u.status.value
    else reason == "unknown"
  }

  /** Every line after position `i` is passed over. */
  ghost predicate QuietAfter(lines: seq<Line>, i: nat) {
    forall j :: i < j < |lines| ==> Quiet(lines[j])
  }

  /** The last line that is not passed over. */
  ghost predicate Stops(lines: seq<Line>, i: nat) {
    i < |lines| && !Quiet(lines[i]) && QuietAfter(lines, i)
  }

  /** The backward scan of `pay_invoice`: the last SUCCEEDED update is selected exactly when every
      later line parses; everything before the line where the scan stops is irrelevant. */
  method ScanBackward(lines: seq<Line>) returns (r: Scanned)
    ensures r.EmptyStream? <==> |lines| == 0
    ensures r.Selected? <==> exists i: nat :: Stops(lines, i) && lines[i].Some?
    ensures r.Unparsable? <==> exists i: nat :: Stops(lines, i) && lines[i].None?
    ensures forall i: nat :: Stops(lines, i) && lines[i].Some? ==> r == Selected(Carried(lines[i].value))
    ensures r.NotPaid? <==> |lines| > 0 && forall j :: 0 <= j < |lines| ==> Quiet(lines[j])
    ensures r.NotPaid? ==> Reports(Carried(lines[|lines| - 1].value), r.reason)
  {
    if |lines| == 0 {
      return EmptyStream;
    }
    var lastUpdate: Option<PaymentUpdate> := None;
    for i := |lines| downto 0
      invariant forall j :: i <= j < |lines| ==> Quiet(lines[j])
      invariant lastUpdate.None? <==> i == |lines|
      invariant lastUpdate.Some? ==>
                  lines[|lines| - 1].Some? && lastUpdate == Some(lines[|lines| - 1].value.Update())
    {
      if lines[i].None? {
        assert Stops(lines, i);
        return Unparsable;
      }
      var update := lines[i].value.Update();
      if lastUpdate.None? {
        lastUpdate := Some(update);
      }
      if update.IsSucceeded() {
        assert Stops(lines, i);
        return Selected(update);
      }
    }
    r := NotPaid(lastUpdate.value.Reason());
  }

  datatype LndError = EmptyPreimage | EmptyHash | BadField | NotVerified

  predicate IsHexDigit(c: char) {
    IsDigit(c) || 'a' <= c <= 'f' || 'A' <= c <= 'F'
  }

  /** 64 hex digits are taken as hex, anything else as base64 (decoded by `base64ToHex`). */
  function BytesFieldToHex(base64ToHex: string -> Option<string>, raw: string): Option<string> {
    if |raw| == 0 then None
    else if |raw| == 64 && forall i :: 0 <= i < |raw| ==> IsHexDigit(raw[i]) then Some(Lower(raw))
    else base64ToHex(raw)
  }

  /** A 32-byte value in hex, in either letter case, is read as itself in lower case; an empty one is
      refused; any other text is left to the base64 decoder. */
  lemma {:induction false} HexExactly(base64ToHex: string -> Option<string>, raw: string)
    ensures var isHex, r := |raw| == 64 && forall i :: 0 <= i < |raw| ==> IsHexDigit(raw[i]),
              BytesFieldToHex(base64ToHex, raw);
            && (raw == "" ==> r.None?)
            && (isHex ==>
                  && r.Some? && |r.value| == 64
                  && forall i :: 0 <= i < 64 ==>
                       r.value[i] == if 'A' <= raw[i] <= 'F' then raw[i] - 'A' + 'a' else raw[i])
            && (raw != "" && !isHex ==> r == base64ToHex(raw))
  {
    if |raw| == 64 && forall i :: 0 <= i < |raw| ==> IsHexDigit(raw[i]) {
      assert forall i :: 0 <= i < 64 ==> Lower(raw)[i] == LowerChar(raw[i]);
    }
  }

  /** From the selected update to the reported payment. */
  function Settle(crypto: MockChallenge.Crypto, base64ToHex: string -> Option<string>, u: PaymentUpdate)
    : Result<PaymentResult, LndError>
  {
    match Or(u.paymentPreimage, u.paymentPreimageCamel)
    case None => Err(EmptyPreimage)
    case Some(preimageRaw) =>
      match Or(u.paymentHash, u.paymentHashCamel)
      case None => Err(EmptyHash)
      case Some(hashRaw) =>
        match (BytesFieldToHex(base64ToHex, preimageRaw), BytesFieldToHex(base64ToHex, hashRaw))
        case (Some(preimage), Some(hash)) =>
          if crypto.hash(preimage).None? then Err(BadField)
          else if crypto.hash(preimage).value != hash then Err(NotVerified)
          else Ok(PaymentResult(preimage, hash, u.AmountSats(), u.FeeSats()))
        case _ => Err(BadField)
  }

  /** A sum in an update: in millisatoshis if at all, else in whole satoshis. */
  predicate States(msatField: Option<string>, satField: Option<string>, msat: nat) {
    match msatField
    case Some(text) => text == Decimal(msat)
    case None => satField == Some(Decimal(msat / 1000))
  }

  predicate StatesAmount(u: PaymentUpdate, msat: nat) {
    States(Or(u.valueMsat, u.valueMsatCamel), Or(u.valueSat, u.valueSatCamel), msat)
  }

  predicate StatesFee(u: PaymentUpdate, msat: nat) {
    States(Or(u.feeMsat, u.feeMsatCamel), Or(u.feeSat, u.feeSatCamel), msat)
  }

  /** What an update does not state, or states unreadably, is 0. */
  lemma {:induction false} UnstatedSats(msatField: Option<string>, satField: Option<string>)
    requires if msatField.Some? then ParseU64(msatField.value).None?
             else satField.None? || ParseU64(satField.value).None?
    ensures Sats(msatField, satField) == 0
  {
  }

  lemma {:induction false} StatedSats(msatField: Option<string>, satField: Option<string>, msat: nat)
    requires msat < U64 && States(msatField, satField, msat)
    ensures Sats(msatField, satField) == msat / 1000
  {
    ParseDecimal(msat);
    ParseDecimal(msat / 1000);
    hide ParseU64, Decimal;
  }

  /** A reported payment carries the update's own preimage and hash, in hex, and they match; sums are
      reported in satoshis rounded down, whichever spelling and unit the update gives them in. */
  lemma {:induction false} SettledPayment(crypto: MockChallenge.Crypto, base64ToHex: string -> Option<string>,
                                          u: PaymentUpdate, msat: nat, fee: nat)
    requires Settle(crypto, base64ToHex, u).Ok? && msat < U64 && fee < U64
    ensures var p := Settle(crypto, base64ToHex, u).value;
            && Some(p.preimage) == BytesFieldToHex(base64ToHex, Or(u.paymentPreimage, u.paymentPreimageCamel).value)
            && Some(p.paymentHash) == BytesFieldToHex(base64ToHex, Or(u.paymentHash, u.paymentHashCamel).value)
            && crypto.hash(p.preimage) == Some(p.paymentHash)
            && (StatesAmount(u, msat) ==> p.amountSats == msat / 1000)
            && (StatesFee(u, fee) ==> p.feeSats == fee / 1000)
  {
    if StatesAmount(u, msat) {
      StatedSats(Or(u.valueMsat, u.valueMsatCamel), Or(u.valueSat, u.valueSatCamel), msat);
    }
    if StatesFee(u, fee) {
      StatedSats(Or(u.feeMsat, u.feeMsatCamel), Or(u.feeSat, u.feeSatCamel), fee);
    }
    hide Sats, States;
  }

  /** The field in either spelling, in hex. */
  function HexOf(base64ToHex: string -> Option<string>, snake: Option<string>, camel: Option<string>): Option<string> {
    match if snake.Some? then snake else camel
    case None => None
    case Some(raw) => BytesFieldToHex(base64ToHex, raw)
  }

  /** A payment is reported exactly when both halves of the proof can be read and match. */
  lemma {:induction false} SettledExactly(crypto: MockChallenge.Crypto, base64ToHex: string -> Option<string>,
                                          u: PaymentUpdate)
    ensures var preimage := HexOf(base64ToHex, u.paymentPreimage, u.paymentPreimageCamel);
            var hash := HexOf(base64ToHex, u.paymentHash, u.paymentHashCamel);
            && (Settle(crypto, base64ToHex, u).Ok? <==>
                preimage.Some? && hash.Some? && crypto.hash(preimage.value) == hash)
            && (Settle(crypto, base64ToHex, u).Ok? ==>
                  && Settle(crypto, base64ToHex, u).value.preimage == preimage.value
                  && Settle(crypto, base64ToHex, u).value.paymentHash == hash.value)
  {
    hide BytesFieldToHex;
  }
}
