/** Reading the amount of a BOLT11 invoice (BOLT #11, section "Human-Readable Part"). */
module Bolt11 {
  import opened Wrappers
  import opened Text

  /** Why an invoice is refused; the source has one error with these reasons. */
  datatype InvoiceError =
    | UnknownPrefix
    | NoSeparator
    | UnknownMultiplier
    | NoNumber
    | BadNumber
    | PicoNotMultipleOfTen
    | NotPositive

  /** How a number with a decimal point is scaled and rounded: floating point, so left to a
      parameter. It receives the number and the factor to millisatoshis; negative results are 0. */
  type DecimalReader = (string, nat) -> Option<nat>

  datatype InvoiceAmount = InvoiceAmount(millisatoshis: nat) {
    /** Rounded up. */
    function Satoshis(): nat {
      (millisatoshis + 999) / 1000
    }
  }

  const BTC_TO_MSAT := 100_000_000_000
  const NETWORKS := ["lnbcrt", "lnbc", "lntbs", "lntb"]

  /** Millisatoshis in one unit of a multiplier; pico is special-cased. */
  function Factor(multiplier: char): Option<nat> {
    match multiplier
    case 'm' => Some(100_000_000)
    case 'u' => Some(100_000)
    case 'n' => Some(100)
    case 'p' => Some(0)
    case _ => None
  }

  function ParsePicoAmount(number: string): Result<nat, InvoiceError> {
    match ParseU64(number)
    case None => Err(BadNumber)
    case Some(value) => if value % 10 != 0 then Err(PicoNotMultipleOfTen) else Ok(value / 10)
  }

  /** The cast of a float to `u64` saturates; integers are multiplied unchecked. */
  function ParseScaled(dec: DecimalReader, number: string, factor: nat): Result<nat, InvoiceError> {
    match if '.' in number then dec(number, factor) else ParseU64(number)
    case None => Err(BadNumber)
    case Some(value) => Ok(if '.' in number then Min(value, U64 - 1) else Mul64(value, factor))
  }

  function ParseAmountWithMultiplier(dec: DecimalReader, number: string, multiplier: char, factor: nat)
    : Result<nat, InvoiceError>
  {
    if multiplier == 'p' then ParsePicoAmount(number) else ParseScaled(dec, number, factor)
  }

  function ParseAmountBtc(dec: DecimalReader, number: string): Result<nat, InvoiceError> {
    ParseScaled(dec, number, BTC_TO_MSAT)
  }

  function StripNetwork(invoice: string): Option<string> {
    match StripPrefix(invoice, "lnbcrt") case Some(rest) => Some(rest) case None =>
    match StripPrefix(invoice, "lnbc") case Some(rest) => Some(rest) case None =>
    match StripPrefix(invoice, "lntbs") case Some(rest) => Some(rest) case None =>
    StripPrefix(invoice, "lntb")
  }

  /** The amount between the network prefix and the separator. */
  function ParseAmount(dec: DecimalReader, amount: string): Result<nat, InvoiceError>
    requires |amount| > 0
  {
    var last := amount[|amount| - 1];
    match Factor(last)
    case Some(factor) =>
      var number := amount[..|amount| - 1];
      if |number| == 0 then Err(NoNumber)
      else ParseAmountWithMultiplier(dec, number, last, factor)
    case None =>
      if IsDigit(last) then ParseAmountBtc(dec, amount) else Err(UnknownMultiplier)
  }

  /** `Ok(None)` is an invoice without an amount. */
  function DecodeAmount(dec: DecimalReader, invoice: string): Result<Option<InvoiceAmount>, InvoiceError> {
    match StripNetwork(Lower(invoice))
    case None => Err(UnknownPrefix)
    case Some(rest) =>
      match RFind(rest, '1')
      case None => Err(NoSeparator)
      case Some(at) =>
        if at == 0 then Ok(None)
        else match ParseAmount(dec, rest[..at])
          case Err(e) => Err(e)
          case Ok(msat) => if msat == 0 then Err(NotPositive) else Ok(Some(InvoiceAmount(msat)))
  }

  /** What the engine charges the budget: nothing for an amountless or undecodable invoice. */
  function Charge(dec: DecimalReader, invoice: string): nat {
    match DecodeAmount(dec, invoice)
    case Ok(Some(amount)) => amount.Satoshis()
    case _ => 0
  }

  /** The largest charge an invoice can carry. */
  const MAX_CHARGE: nat := (U64 - 1 + 999) / 1000

  lemma {:induction false} DecodeBounded(dec: DecimalReader, invoice: string)
    ensures match DecodeAmount(dec, invoice) case Ok(Some(amount)) => amount.millisatoshis < U64 case _ => true
  {
    match StripNetwork(Lower(invoice))
    case None =>
    case Some(rest) =>
      match RFind(rest, '1')
      case None =>
      case Some(at) =>
        if at > 0 {
          ParseBounded(dec, rest[..at]);
        }
        hide ParseAmount;
  }

  lemma {:induction false} ParseBounded(dec: DecimalReader, amount: string)
    requires |amount| > 0
    ensures ParseAmount(dec, amount).Ok? ==> ParseAmount(dec, amount).value < U64
  {
    hide ParseU64;
  }

  /** Whatever the invoice says. */
  lemma {:induction false} ChargeBounded(dec: DecimalReader, invoice: string)
    ensures Charge(dec, invoice) <= MAX_CHARGE
  {
    DecodeBounded(dec, invoice);
    hide DecodeAmount;
  }

  /** The charge is the amount read, rounded up to the next satoshi, and nothing when none is read. */
  lemma {:induction false} ChargeExactly(dec: DecimalReader, invoice: string)
    ensures match DecodeAmount(dec, invoice)
            case Ok(Some(amount)) =>
              var charge := Charge(dec, invoice);
              1000 * charge >= amount.millisatoshis && (charge > 0 ==> 1000 * (charge - 1) < amount.millisatoshis)
            case _ => Charge(dec, invoice) == 0
  {
    hide DecodeAmount;
  }

  // ----- the meaning of a well-formed human-readable part -----

  /** The units of an amount, largest first. */
  datatype Unit = Btc | Milli | Micro | Nano | Pico {
    function Suffix(): string {
      match this case Btc => "" case Milli => "m" case Micro => "u" case Nano => "n" case Pico => "p"
    }

    /** Millisatoshis in `value` of this unit; a pico is a tenth of one. */
    function Millisatoshis(value: nat): Option<nat> {
      match this
      case Btc => Some(value * 100_000_000_000)
      case Milli => Some(value * 100_000_000)
      case Micro => Some(value * 100_000)
      case Nano => Some(value * 100)
      case Pico => if value % 10 == 0 then Some(value / 10) else None
    }
  }

  /** Millisatoshis in `value` units: refused outside u64 and for a fraction of a
      millisatoshi, otherwise the product modulo 2^64, as the source multiplies unchecked. */
  function Meaning(value: nat, unit: Unit): Result<nat, InvoiceError> {
    if value >= U64 then Err(BadNumber)
    else match unit.Millisatoshis(value)
      case None => Err(PicoNotMultipleOfTen)
      case Some(msat) => Ok(Wrap64(msat))
  }

  /** An amount must be positive. */
  function Reading(value: nat, unit: Unit): Result<Option<InvoiceAmount>, InvoiceError> {
    match Meaning(value, unit)
    case Err(e) => Err(e)
    case Ok(msat) => if msat == 0 then Err(NotPositive) else Ok(Some(InvoiceAmount(msat)))
  }

  /** The decoder on `<network><number><unit>1<data>`, in any letter case, for every number:
      the number's meaning, refused when that is 0. */
  lemma {:induction false} DecodeMeaning(dec: DecimalReader, invoice: string, network: string, number: string,
      unit: Unit, data: string)
    requires network in NETWORKS
    requires |number| > 0 && AllDigits(number) && '1' !in data
    requires Lower(invoice) == network + (number + unit.Suffix()) + ['1'] + data
    ensures DecodeAmount(dec, invoice) == Reading(Value(number), unit)
  {
    var amount := number + unit.Suffix();
    var rest := amount + ['1'] + data;
    assert Lower(invoice) == network + rest;
    StripNetworkOf(network, rest);
    RFindLast(amount, '1', data);
    assert rest[..|amount|] == amount;
    ParseAmountOf(dec, number, unit);
  }

  lemma {:induction false} StripNetworkOf(network: string, rest: string)
    requires network in NETWORKS
    requires |rest| > 0 && (IsDigit(rest[0]))
    ensures StripNetwork(network + rest) == Some(rest)
  {
    var s := network + rest;
    assert s[|network|..] == rest;
    if network == "lnbc" {
      assert s[4] == rest[0] && "lnbcrt"[4] == 'r';
    } else if network == "lntb" {
      assert s[4] == rest[0] && "lntbs"[4] == 's';
      assert s[2] == 't' && "lnbcrt"[2] == 'b' && "lnbc"[2] == 'b';
    } else if network == "lntbs" {
      assert s[2] == 't' && "lnbcrt"[2] == 'b' && "lnbc"[2] == 'b';
    }
  }

  lemma {:induction false} ParseAmountOf(dec: DecimalReader, number: string, unit: Unit)
    requires |number| > 0 && AllDigits(number)
    ensures ParseAmount(dec, number + unit.Suffix()) == Meaning(Value(number), unit)
  {
    match unit
    case Btc =>
      assert number + "" == number;
      assert IsDigit(number[|number| - 1]) && Factor(number[|number| - 1]).None?;
      ScaledOf(dec, number, BTC_TO_MSAT);
    case Milli => SuffixedOf(dec, number, 'm', 100_000_000);
    case Micro => SuffixedOf(dec, number, 'u', 100_000);
    case Nano => SuffixedOf(dec, number, 'n', 100);
    case Pico => SuffixedOf(dec, number, 'p', 0);
  }

  lemma {:induction false} SuffixedOf(dec: DecimalReader, number: string, multiplier: char, factor: nat)
    requires |number| > 0 && AllDigits(number) && Factor(multiplier) == Some(factor)
    ensures ParseAmount(dec, number + [multiplier]) ==
              if Value(number) >= U64 then Err(BadNumber)
              else if multiplier != 'p' then Ok(Mul64(Value(number), factor))
              else if Value(number) % 10 != 0 then Err(PicoNotMultipleOfTen)
              else Ok(Value(number) / 10)
  {
    var amount := number + [multiplier];
    assert amount[..|amount| - 1] == number;
    ScaledOf(dec, number, factor);
    assert IsDigit(number[0]);
  }

  lemma {:induction false} ScaledOf(dec: DecimalReader, number: string, factor: nat)
    requires |number| > 0 && AllDigits(number)
    ensures ParseScaled(dec, number, factor) ==
              if Value(number) >= U64 then Err(BadNumber) else Ok(Mul64(Value(number), factor))
  {
    assert '.' !in number;
    assert IsDigit(number[0]);
  }

  lemma {:induction false} SmallerUnit(value: nat, unit: Unit, smaller: Unit)
    requires (unit, smaller) in [(Btc, Milli), (Milli, Micro), (Micro, Nano), (Nano, Pico)]
    requires 1000 * value < U64
    ensures Meaning(value, unit) == Meaning(1000 * value, smaller)
  {
    hide *;
    SmallerUnitMsat(value, unit, smaller);
    MeaningOf(value, unit);
    MeaningOf(1000 * value, smaller);
    assert value < U64;
  }

  lemma {:induction false} MeaningOf(value: nat, unit: Unit)
    requires value < U64
    ensures Meaning(value, unit) ==
              match unit.Millisatoshis(value)
              case None => Err(PicoNotMultipleOfTen)
              case Some(msat) => Ok(Wrap64(msat))
  {
  }

  lemma {:induction false} SmallerUnitMsat(value: nat, unit: Unit, smaller: Unit)
    requires (unit, smaller) in [(Btc, Milli), (Milli, Micro), (Micro, Nano), (Nano, Pico)]
    ensures unit.Millisatoshis(value) == smaller.Millisatoshis(1000 * value)
  {
    TenTimes(100 * value);
  }

  lemma {:induction false} TenTimes(n: nat)
    ensures 10 * n % 10 == 0 && 10 * n / 10 == n
  {
  }

  /** N of a unit is N000 of the next smaller unit, under every network and any data. */
  lemma {:induction false} UnitCoherence(dec: DecimalReader, network: string, network': string,
      number: string, unit: Unit, smaller: Unit, data: string, data': string)
    requires network in NETWORKS && network' in NETWORKS
    requires (unit, smaller) in [(Btc, Milli), (Milli, Micro), (Micro, Nano), (Nano, Pico)]
    requires AllDigits(number) && Value(number) > 0 && Value(number) * 1000 < U64
    requires '1' !in data && '1' !in data'
    ensures DecodeAmount(dec, network + number + unit.Suffix() + "1" + data)
         == DecodeAmount(dec, network' + (number + "000") + smaller.Suffix() + "1" + data')
  {
    AppendZeros(number);
    SmallerUnit(Value(number), unit, smaller);
    DecodeText(dec, network, number, unit, data);
    DecodeText(dec, network', number + "000", smaller, data');
  }

  lemma {:induction false} DecodeText(dec: DecimalReader, network: string, number: string, unit: Unit, data: string)
    requires network in NETWORKS
    requires |number| > 0 && AllDigits(number) && '1' !in data
    ensures DecodeAmount(dec, network + number + unit.Suffix() + "1" + data) == Reading(Value(number), unit)
  {
    LowerInvoice(network, number, unit, data);
    assert forall i :: 0 <= i < |data| ==> Lower(data)[i] == LowerChar(data[i]);
    DecodeMeaning(dec, network + number + unit.Suffix() + "1" + data, network, number, unit, Lower(data));
  }

  /** An invoice without an amount, under every network. */
  lemma {:induction false} DecodeAmountless(dec: DecimalReader, network: string, data: string)
    requires network in NETWORKS && '1' !in data
    ensures DecodeAmount(dec, network + "1" + data) == Ok(None)
  {
    var rest := "1" + Lower(data);
    LowerAmountless(network, data);
    RFindLast("", '1', Lower(data));
    assert "" + ['1'] + Lower(data) == rest;
    StripNetworkOf(network, rest);
    hide Lower, RFind, StripNetwork;
  }

  /** And conversely an invoice without an amount has that shape. */
  lemma {:induction false} AmountlessSound(dec: DecimalReader, invoice: string) returns (network: string, data: string)
    requires DecodeAmount(dec, invoice) == Ok(None)
    ensures network in NETWORKS && '1' !in data && Lower(invoice) == network + "1" + data
  {
    var lower := Lower(invoice);
    AmountlessParts(dec, invoice);
    hide Lower, StripNetwork, DecodeAmount, RFind, NETWORKS;
    var rest := StripNetwork(lower).value;
    network := StripNetworkSound(lower);
    RFindSound(rest, '1');
    data := rest[1..];
    assert rest == "1" + data;
    assert network + rest == network + "1" + data;
  }

  lemma {:induction false} AmountlessParts(dec: DecimalReader, invoice: string)
    requires DecodeAmount(dec, invoice) == Ok(None)
    ensures StripNetwork(Lower(invoice)).Some? && RFind(StripNetwork(Lower(invoice)).value, '1') == Some(0)
  {
    hide Lower, ParseAmount, StripNetwork, RFind;
  }

  lemma {:induction false} LowerAmountless(network: string, data: string)
    requires network in NETWORKS && '1' !in data
    ensures Lower(network + "1" + data) == network + ("1" + Lower(data)) && '1' !in Lower(data)
  {
    LowerConcat(network + "1", data);
    LowerConcat(network, "1");
    assert Lower(network) == network && Lower("1") == "1";
    assert network + "1" + Lower(data) == network + ("1" + Lower(data));
    assert forall i :: 0 <= i < |data| ==> Lower(data)[i] == LowerChar(data[i]);
  }

  /** Conversely, an amount read from an invoice without a decimal point is always the reading
      of such a human-readable part (Rust's integer parser lets a `+` precede the digits). */
  lemma {:induction false} DecodeSound(dec: DecimalReader, invoice: string, amount: InvoiceAmount)
    returns (network: string, number: string, unit: Unit, data: string)
    requires DecodeAmount(dec, invoice) == Ok(Some(amount)) && '.' !in invoice
    ensures network in NETWORKS && |number| > 0 && AllDigits(number) && '1' !in data
    ensures || Lower(invoice) == network + (number + unit.Suffix()) + "1" + data
            || Lower(invoice) == network + ("+" + number + unit.Suffix()) + "1" + data
    ensures Reading(Value(number), unit) == Ok(Some(amount))
  {
    hide *;
    var rest, at := DecodeParts(dec, invoice, amount);
    network := StripNetworkSound(Lower(invoice));
    var text := rest[..at];
    data := rest[at + 1..];
    assert rest == text + "1" + data;
    assert network + rest == network + text + "1" + data;
    number, unit := ParseAmountSound(dec, text);
    ReadingOf(Value(number), unit, amount);
  }

  lemma {:induction false} ReadingOf(value: nat, unit: Unit, amount: InvoiceAmount)
    requires Meaning(value, unit) == Ok(amount.millisatoshis) && amount.millisatoshis > 0
    ensures Reading(value, unit) == Ok(Some(amount))
  {
  }

  /** The pieces of an invoice that carries an amount. */
  lemma {:induction false} DecodeParts(dec: DecimalReader, invoice: string, amount: InvoiceAmount)
    returns (rest: string, at: nat)
    requires DecodeAmount(dec, invoice) == Ok(Some(amount)) && '.' !in invoice
    ensures StripNetwork(Lower(invoice)) == Some(rest)
    ensures 0 < at < |rest| && rest[at] == '1' && '1' !in rest[at + 1..]
    ensures '.' !in rest[..at] && ParseAmount(dec, rest[..at]) == Ok(amount.millisatoshis)
    ensures amount.millisatoshis > 0
  {
    hide ParseAmount;
    var lower := Lower(invoice);
    assert '.' !in lower by {
      assert forall i :: 0 <= i < |lower| ==> lower[i] == LowerChar(invoice[i]);
    }
    rest := StripNetwork(lower).value;
    var network := StripNetworkSound(lower);
    at := RFind(rest, '1').value;
    RFindSound(rest, '1');
    assert '.' !in rest[..at] by {
      assert forall i :: 0 <= i < at ==> rest[..at][i] == lower[|network| + i];
    }
  }

  lemma {:induction false} StripNetworkSound(lower: string) returns (network: string)
    requires StripNetwork(lower).Some?
    ensures network in NETWORKS && lower == network + StripNetwork(lower).value
  {
    network := if "lnbcrt" <= lower then "lnbcrt" else if "lnbc" <= lower then "lnbc"
               else if "lntbs" <= lower then "lntbs" else "lntb";
  }

  lemma {:induction false} ParseAmountSound(dec: DecimalReader, text: string) returns (number: string, unit: Unit)
    requires |text| > 0 && ParseAmount(dec, text).Ok? && '.' !in text
    ensures |number| > 0 && AllDigits(number)
    ensures text == number + unit.Suffix() || text == "+" + number + unit.Suffix()
    ensures Meaning(Value(number), unit) == ParseAmount(dec, text)
  {
    var signed;
    signed, unit := AmountParts(dec, text);
    hide ParseAmount, Meaning;
    number := UnsignedSound(signed);
  }

  /** The number, with its sign if any, and the unit of an amount that is read. */
  lemma {:induction false} AmountParts(dec: DecimalReader, text: string) returns (signed: string, unit: Unit)
    requires |text| > 0 && ParseAmount(dec, text).Ok? && '.' !in text
    ensures text == signed + unit.Suffix() && ParseU64(signed).Some?
    ensures ParseAmount(dec, text) == Meaning(ParseU64(signed).value, unit)
  {
    var last := text[|text| - 1];
    unit := match last case 'm' => Milli case 'u' => Micro case 'n' => Nano case 'p' => Pico case _ => Btc;
    signed := if unit.Btc? then text else text[..|text| - 1];
    assert text == signed + unit.Suffix();
    assert '.' !in signed;
    hide ParseU64;
  }

  lemma {:induction false} UnsignedSound(signed: string) returns (number: string)
    requires ParseU64(signed).Some?
    ensures |number| > 0 && AllDigits(number) && ParseU64(signed) == Some(Value(number))
    ensures signed == number || signed == "+" + number
  {
    number := if |signed| > 1 && signed[0] == '+' then signed[1..] else signed;
    assert signed == number || signed == "+" + number;
  }

  lemma {:induction false} RFindSound(s: string, c: char)
    ensures RFind(s, c).None? <==> c !in s
    ensures RFind(s, c).Some? ==>
              var at := RFind(s, c).value; s[at] == c && c !in s[at + 1..]
  {
    if |s| > 0 && s[|s| - 1] != c {
      RFindSound(s[..|s| - 1], c);
      assert s == s[..|s| - 1] + [s[|s| - 1]];
      if RFind(s, c).Some? {
        var at := RFind(s, c).value;
        assert s[at + 1..] == s[..|s| - 1][at + 1..] + [s[|s| - 1]];
      }
    }
  }

  lemma {:induction false} AppendZeros(number: string)
    requires AllDigits(number)
    ensures AllDigits(number + "000") && Value(number + "000") == 1000 * Value(number)
  {
    AppendZero(number);
    AppendZero(number + "0");
    AppendZero(number + "0" + "0");
    assert number + "000" == number + "0" + "0" + "0";
  }

  lemma {:induction false} AppendZero(number: string)
    requires AllDigits(number)
    ensures AllDigits(number + "0") && Value(number + "0") == 10 * Value(number)
  {
    assert (number + "0")[..|number|] == number;
  }

  lemma {:induction false} LowerInvoice(network: string, number: string, unit: Unit, data: string)
    requires network in NETWORKS && AllDigits(number)
    ensures Lower(network + number + unit.Suffix() + "1" + data)
         == network + (number + unit.Suffix()) + ['1'] + Lower(data)
  {
    var fixed := network + number + unit.Suffix() + "1";
    LowerConcat(fixed, data);
    LowerConcat(network + number + unit.Suffix(), "1");
    LowerConcat(network + number, unit.Suffix());
    LowerConcat(network, number);
    assert Lower(network) == network;
    assert Lower(number) == number;
    assert Lower(unit.Suffix()) == unit.Suffix();
    assert Lower("1") == "1";
  }
}
