/** The `WWW-Authenticate: L402 ...` challenge (section 11.6.1 of RFC 9110 for the field). */
module L402Challenge {
  import opened Wrappers
  import opened Text
  import L402Token

  datatype ChallengeError =
    | BadScheme
    | NotKeyValue
    | MissingMacaroon
    | MissingInvoice
    | MacaroonNotBase64
    | InvoicePrefix

  datatype L402Challenge = L402Challenge(macaroon: string, invoice: string, address: Option<string>)

  /** The parameters seen so far; a later binding of a key replaces an earlier one. */
  datatype Fields = Fields(macaroon: Option<string>, invoice: Option<string>, address: Option<string>) {
    function Bind(key: string, value: string): Fields {
      if key == "macaroon" then this.(macaroon := Some(value))
      else if key == "invoice" then this.(invoice := Some(value))
      else if key == "address" then this.(address := Some(value))
      else this
    }
  }

  const NO_FIELDS := Fields(None, None, None)

  /** What is left of a parameter once its comma is reached: nothing if blank. */
  function Finished(current: string): seq<string> {
    if |Trim(current)| == 0 then [] else [Trim(current)]
  }

  /** The scan of `parse_params` from some point on, in its current state. */
  function Scan(input: string, current: string, inQuotes: bool): seq<string> {
    if |input| == 0 then Finished(current)
    else if input[0] == '"' then Scan(input[1..], current + ['"'], !inQuotes)
    else if input[0] == ',' && !inQuotes then Finished(current) + Scan(input[1..], "", false)
    else Scan(input[1..], current + [input[0]], inQuotes)
  }

  /** Splits at commas outside quotes. */
  method ParseParams(input: string) returns (params: seq<string>)
    ensures params == Scan(input, "", false)
  {
    params := [];
    var current, inQuotes := "", false;
    for i := 0 to |input|
      invariant Scan(input, "", false) == params + Scan(input[i..], current, inQuotes)
    {
      assert input[i..][1..] == input[i + 1..];
      var ch := input[i];
      if ch == '"' {
        inQuotes := !inQuotes;
        current := current + [ch];
      } else if ch == ',' && !inQuotes {
        var trimmed := Trim(current);
        if |trimmed| > 0 {
          params := params + [trimmed];
        }
        current := "";
      } else {
        current := current + [ch];
      }
    }
    var trimmed := Trim(current);
    if |trimmed| > 0 {
      params := params + [trimmed];
    }
  }

  function ParseKv(param: string): Option<(string, string)> {
    match SplitOnce(param, '=')
    case None => None
    case Some(pair) => Some((Lower(Trim(pair.0)), TrimBy(Trim(pair.1), IsQuote)))
  }

  /** Binds each parameter in turn; `None` when one is not a key=value pair. */
  function BindAll(fields: Fields, params: seq<string>): Option<Fields>
    decreases |params|
  {
    if |params| == 0 then Some(fields)
    else match ParseKv(params[0])
      case None => None
      case Some(kv) => BindAll(fields.Bind(kv.0, kv.1), params[1..])
  }

  /** The checks after all parameters are read. */
  function Finish(isBase64: string -> bool, fields: Fields): Result<L402Challenge, ChallengeError> {
    if fields.macaroon.None? then Err(MissingMacaroon)
    else if fields.invoice.None? then Err(MissingInvoice)
    else if !isBase64(fields.macaroon.value) then Err(MacaroonNotBase64)
    else if !("lnbc" <= fields.invoice.value) && !("lntb" <= fields.invoice.value) then Err(InvoicePrefix)
    else Ok(L402Challenge(fields.macaroon.value, fields.invoice.value, fields.address))
  }

  function Parse(isBase64: string -> bool, header: string): Result<L402Challenge, ChallengeError> {
    match L402Token.StripScheme(Trim(header))
    case None => Err(BadScheme)
    case Some(params) =>
      match BindAll(NO_FIELDS, Scan(params, "", false))
      case None => Err(NotKeyValue)
      case Some(fields) => Finish(isBase64, fields)
  }

  /** `isBase64` stands for the two base64 decoders, standard and URL-safe. */
  method FromHeader(isBase64: string -> bool, header: string) returns (r: Result<L402Challenge, ChallengeError>)
    ensures r == Parse(isBase64, header)
    ensures r.Ok? ==> isBase64(r.value.macaroon) && ("lnbc" <= r.value.invoice || "lntb" <= r.value.invoice)
    ensures r == Err(BadScheme) <==> !("L402 " <= Trim(header)) && !("LSAT " <= Trim(header))
  {
    var stripped := L402Token.StripScheme(Trim(header));
    if stripped.None? {
      return Err(BadScheme);
    }
    var params := ParseParams(stripped.value);
    var macaroon, invoice, address: Option<string> := None, None, None;
    for i := 0 to |params|
      invariant BindAll(NO_FIELDS, params) == BindAll(Fields(macaroon, invoice, address), params[i..])
    {
      assert params[i..][1..] == params[i + 1..];
      var kv := ParseKv(params[i]);
      if kv.None? {
        return Err(NotKeyValue);
      }
      match kv.value.0 {
        case "macaroon" => macaroon := Some(kv.value.1);
        case "invoice" => invoice := Some(kv.value.1);
        case "address" => address := Some(kv.value.1);
        case _ =>
      }
    }
    r := Finish(isBase64, Fields(macaroon, invoice, address));
  }
}
