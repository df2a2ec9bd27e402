/** The challenge parser inverts the printing of any list of quoted parameters. */
module ChallengeLaws {
  import opened Wrappers
  import opened Text
  import opened L402Challenge
  import L402Token
  import MockChallenge

  /** A printed parameter, with white space around the key if any; or a text that is none. */
  datatype Param = Param(key: string, value: string) | Bare(text: string) {
    function Print(): string {
      match this
      case Param(key, value) => key + "=\"" + value + "\""
      case Bare(text) => text
    }

    function Name(): string
      requires Param?
    {
      Lower(Trim(key))
    }

    /** Values may hold commas, `=` and spaces, only no quotes. */
    predicate Printable() {
      match this
      case Param(key, value) => '=' !in key && ',' !in key && '"' !in key && '"' !in value
      case Bare(text) =>
        && '=' !in text && ',' !in text && '"' !in text
        && |text| > 0 && !IsSpace(text[|text| - 1])
    }
  }

  function PrintAll(ps: seq<Param>): string {
    if |ps| == 0 then ""
    else if |ps| == 1 then ps[0].Print()
    else ps[0].Print() + "," + PrintAll(ps[1..])
  }

  /** The value of the last parameter of that name. */
  function Last(ps: seq<Param>, name: string): Option<string> {
    if |ps| == 0 then None
    else if ps[|ps| - 1].Param? && ps[|ps| - 1].Name() == name then Some(ps[|ps| - 1].value)
    else Last(ps[..|ps| - 1], name)
  }

  predicate HasBare(ps: seq<Param>) {
    exists p :: p in ps && p.Bare?
  }

  /** For every list of parameters, in any order and with any unknown keys: the parser sees the
      last binding of each known key and nothing else, unless some parameter binds nothing. */
  lemma {:induction false} ParsePrinted(isBase64: string -> bool, scheme: string, ps: seq<Param>)
    requires scheme in ["L402 ", "LSAT "] && |ps| > 0
    requires forall p :: p in ps ==> p.Printable()
    ensures Parse(isBase64, scheme + PrintAll(ps)) ==
              if HasBare(ps) then Err(NotKeyValue)
              else Finish(isBase64, Fields(Last(ps, "macaroon"), Last(ps, "invoice"), Last(ps, "address")))
  {
    var header := scheme + PrintAll(ps);
    PrintAllEnds(ps);
    assert header[0] == 'L' && header[|header| - 1] == PrintAll(ps)[|PrintAll(ps)| - 1];
    TrimClean(header, IsSpace);
    assert header[5..] == PrintAll(ps);
    assert L402Token.StripScheme(header) == Some(PrintAll(ps));
    ScanPrinted(ps);
    BindPrinted(NO_FIELDS, ps);
  }

  lemma {:induction false} PrintAllEnds(ps: seq<Param>)
    requires |ps| > 0 && forall p :: p in ps ==> p.Printable()
    ensures |PrintAll(ps)| > 0 && !IsSpace(PrintAll(ps)[|PrintAll(ps)| - 1])
  {
    assert ps[0].Printable();
    if |ps| > 1 {
      PrintAllEnds(ps[1..]);
    }
  }

  /** An invoice the parser accepts by its prefix. */
  predicate KnownPrefix(invoice: string) {
    "lnbc" <= invoice || "lntb" <= invoice
  }

  /** Exactly when a printed list is read as a challenge, and as which; and exactly which error it gives
      otherwise, the first of these conditions to fail. */
  lemma {:induction false} ParseExactly(isBase64: string -> bool, scheme: string, ps: seq<Param>, c: L402Challenge)
    requires scheme in ["L402 ", "LSAT "] && |ps| > 0
    requires forall p :: p in ps ==> p.Printable()
    ensures var r := Parse(isBase64, scheme + PrintAll(ps));
            var macaroon, invoice := Last(ps, "macaroon"), Last(ps, "invoice");
            && (r == Ok(c) <==>
                && !HasBare(ps) && macaroon == Some(c.macaroon) && invoice == Some(c.invoice)
                && isBase64(c.macaroon) && KnownPrefix(c.invoice) && c.address == Last(ps, "address"))
            && (r == Err(NotKeyValue) <==> HasBare(ps))
            && (r == Err(MissingMacaroon) <==> !HasBare(ps) && macaroon.None?)
            && (r == Err(MissingInvoice) <==> !HasBare(ps) && macaroon.Some? && invoice.None?)
            && (r == Err(MacaroonNotBase64) <==>
                !HasBare(ps) && macaroon.Some? && invoice.Some? && !isBase64(macaroon.value))
            && (r == Err(InvoicePrefix) <==>
                && !HasBare(ps) && macaroon.Some? && invoice.Some? && isBase64(macaroon.value)
                && !KnownPrefix(invoice.value))
            && r != Err(BadScheme)
  {
    ParsePrinted(isBase64, scheme, ps);
    hide Parse, Last, HasBare, PrintAll;
  }

  /** Of any header: a scheme is missing exactly when it starts with neither, white space aside. */
  lemma {:induction false} SchemeMissing(isBase64: string -> bool, header: string)
    ensures Parse(isBase64, header) == Err(BadScheme) <==>
              !("L402 " <= Trim(header)) && !("LSAT " <= Trim(header))
  {
    hide Scan, BindAll, Trim;
  }

  /** Of any header: what is read is a base64 macaroon and an invoice of a known prefix. */
  lemma {:induction false} ParseSound(isBase64: string -> bool, header: string)
    requires Parse(isBase64, header).Ok?
    ensures var c := Parse(isBase64, header).value; isBase64(c.macaroon) && KnownPrefix(c.invoice)
  {
    hide Scan, BindAll, Trim;
  }

  // ----- the scan -----

  lemma {:induction false} ScanPiece(piece: string, rest: string, current: string, inQuotes: bool)
    requires '"' !in piece && (inQuotes || ',' !in piece)
    ensures Scan(piece + rest, current, inQuotes) == Scan(rest, current + piece, inQuotes)
  {
    if |piece| > 0 {
      assert (piece + rest)[1..] == piece[1..] + rest;
      ScanPiece(piece[1..], rest, current + [piece[0]], inQuotes);
      assert current + [piece[0]] + piece[1..] == current + piece;
    } else {
      assert piece + rest == rest && current + piece == current;
    }
  }

  lemma {:induction false} ScanOne(p: Param, rest: string)
    requires p.Printable()
    ensures Scan(p.Print() + rest, "", false) == Scan(rest, p.Print(), false)
  {
    if p.Bare? {
      ScanPiece(p.text, rest, "", false);
      assert "" + p.text == p.text;
    } else {
      var head, quoted := p.key + "=", "\"" + (p.value + ("\"" + rest));
      assert p.Print() + rest == head + quoted;
      ScanPiece(head, quoted, "", false);
      assert "" + head == head;
      ScanQuoted(p.value, rest, head);
      assert head + ("\"" + p.value + "\"") == p.Print();
    }
    hide Scan;
  }

  lemma {:induction false} ScanQuoted(value: string, rest: string, current: string)
    requires '"' !in value
    ensures Scan("\"" + (value + ("\"" + rest)), current, false) == Scan(rest, current + ("\"" + value + "\""), false)
  {
    var tail := "\"" + rest;
    assert ("\"" + (value + tail))[1..] == value + tail;
    ScanPiece(value, tail, current + ['"'], true);
    assert tail[1..] == rest;
    assert current + ['"'] + value + ['"'] == current + ("\"" + value + "\"");
  }

  /** The parameters as the scan delivers them. */
  function Trimmed(ps: seq<Param>): seq<string> {
    if |ps| == 0 then [] else [Trim(ps[0].Print())] + Trimmed(ps[1..])
  }

  lemma {:induction false} ScanPrinted(ps: seq<Param>)
    requires forall p :: p in ps ==> p.Printable()
    ensures Scan(PrintAll(ps), "", false) == Trimmed(ps)
  {
    if |ps| > 0 {
      TrimPrinted(ps[0]);
      if |ps| == 1 {
        ScanOne(ps[0], "");
        assert ps[0].Print() + "" == ps[0].Print();
      } else {
        var rest := "," + PrintAll(ps[1..]);
        assert PrintAll(ps) == ps[0].Print() + rest;
        ScanOne(ps[0], rest);
        assert rest[1..] == PrintAll(ps[1..]);
        ScanPrinted(ps[1..]);
      }
    }
  }

  // ----- one parameter -----

  lemma {:induction false} TrimStartOfConcat(head: string, tail: string, p: char -> bool)
    requires |tail| > 0 && !p(tail[0])
    ensures TrimStart(head + tail, p) == TrimStart(head, p) + tail
  {
    if |head| > 0 {
      assert (head + tail)[1..] == head[1..] + tail;
      TrimStartOfConcat(head[1..], tail, p);
    } else {
      assert head + tail == tail;
    }
  }

  lemma {:induction false} TrimStartTwice(s: string, p: char -> bool)
    ensures TrimStart(TrimStart(s, p), p) == TrimStart(s, p)
    ensures forall c :: c in TrimStart(s, p) ==> c in s
  {
    if |s| > 0 && p(s[0]) {
      TrimStartTwice(s[1..], p);
    }
  }

  lemma {:induction false} TrimPrinted(p: Param)
    requires p.Printable()
    ensures |Trim(p.Print())| > 0
    ensures p.Param? ==> Trim(p.Print()) == TrimStart(p.key, IsSpace) + ("=\"" + p.value + "\"")
    ensures p.Bare? ==> Trim(p.Print()) == TrimStart(p.text, IsSpace)
  {
    if p.Param? {
      var tail := "=\"" + p.value + "\"";
      assert p.Print() == p.key + tail;
      TrimStartOfConcat(p.key, tail, IsSpace);
      var s := TrimStart(p.key, IsSpace) + tail;
      assert s[|s| - 1] == '"';
    } else {
      TrimStartLast(p.text, IsSpace);
    }
  }

  lemma {:induction false} TrimStartLast(s: string, p: char -> bool)
    requires |s| > 0 && !p(s[|s| - 1])
    ensures var t := TrimStart(s, p); |t| > 0 && t[|t| - 1] == s[|s| - 1]
  {
    if p(s[0]) {
      TrimStartLast(s[1..], p);
    }
  }

  /** A parameter that binds nothing is refused. */
  lemma {:induction false} BareRefused(p: Param)
    requires p.Printable() && p.Bare?
    ensures ParseKv(Trim(p.Print())) == None
  {
    TrimPrinted(p);
    TrimStartTwice(p.text, IsSpace);
    SplitOnceSound(TrimStart(p.text, IsSpace), '=');
    hide Trim, TrimStart;
  }

  lemma {:induction false} KvPrinted(p: Param)
    requires p.Printable() && p.Param?
    ensures ParseKv(Trim(p.Print())) == Some((p.Name(), p.value))
  {
    hide *;
    var key, quoted := TrimStart(p.key, IsSpace), "\"" + p.value + "\"";
    TrimPrinted(p);
    PlainKey(p);
    assert key + ("=\"" + p.value + "\"") == key + ['='] + quoted;
    SplitOnceFirst(key, '=', quoted);
    PlainQuoted(p.value);
    KvOf(Trim(p.Print()), key, quoted);
  }

  lemma {:induction false} KvOf(param: string, key: string, rest: string)
    requires SplitOnce(param, '=') == Some((key, rest))
    ensures ParseKv(param) == Some((Lower(Trim(key)), TrimBy(Trim(rest), IsQuote)))
  {
  }

  lemma {:induction false} PlainKey(p: Param)
    requires p.Printable() && p.Param?
    ensures '=' !in TrimStart(p.key, IsSpace) && Lower(Trim(TrimStart(p.key, IsSpace))) == p.Name()
    ensures '"' !in p.value
  {
    TrimStartTwice(p.key, IsSpace);
  }

  lemma {:induction false} PlainQuoted(value: string)
    requires '"' !in value
    ensures TrimBy(Trim("\"" + value + "\""), IsQuote) == value
  {
    TrimClean("\"" + value + "\"", IsSpace);
    Unquote(value);
  }

  lemma {:induction false} Unquote(value: string)
    requires '"' !in value
    ensures TrimBy("\"" + value + "\"", IsQuote) == value
  {
    var quoted := "\"" + value + "\"";
    assert quoted[1..] == value + "\"";
    if |value| > 0 {
      assert TrimStart(quoted, IsQuote) == value + "\"";
      TrimEndDrops(value, "\"", IsQuote);
    } else {
      assert quoted[1..] == "\"" && "\""[1..] == "";
    }
  }

  // ----- bindings -----

  /** `ps` bound on top of `fields`. */
  function Over(fields: Fields, ps: seq<Param>): Fields {
    Fields(if Last(ps, "macaroon").Some? then Last(ps, "macaroon") else fields.macaroon,
           if Last(ps, "invoice").Some? then Last(ps, "invoice") else fields.invoice,
           if Last(ps, "address").Some? then Last(ps, "address") else fields.address)
  }

  lemma {:induction false} LastOfConcat(p: Param, ps: seq<Param>, name: string)
    ensures Last([p] + ps, name) ==
              if Last(ps, name).Some? then Last(ps, name)
              else if p.Param? && p.Name() == name then Some(p.value) else None
    decreases |ps|
  {
    var all := [p] + ps;
    if |ps| > 0 {
      assert all[..|all| - 1] == [p] + ps[..|ps| - 1];
      LastOfConcat(p, ps[..|ps| - 1], name);
    } else {
      assert all[..0] == [];
    }
  }

  lemma {:induction false} BindPrinted(fields: Fields, ps: seq<Param>)
    requires forall p :: p in ps ==> p.Printable()
    ensures BindAll(fields, Trimmed(ps)) == if HasBare(ps) then None else Some(Over(fields, ps))
    decreases |ps|
  {
    if |ps| > 0 {
      var p, rest := ps[0], ps[1..];
      assert ps == [p] + rest;
      assert Trimmed(ps)[1..] == Trimmed(rest);
      if p.Bare? {
        BareRefused(p);
      } else {
        KvPrinted(p);
        BindPrinted(fields.Bind(p.Name(), p.value), rest);
        assert HasBare(ps) <==> HasBare(rest);
        LastOfConcat(p, rest, "macaroon");
        LastOfConcat(p, rest, "invoice");
        LastOfConcat(p, rest, "address");
      }
    }
  }

  /** In particular the parser inverts the mock server's printer. */
  lemma {:induction false} ParseMockHeader(isBase64: string -> bool, c: MockChallenge.PendingChallenge)
    requires '"' !in c.macaroon && '"' !in c.invoice
    requires isBase64(c.macaroon) && ("lnbc" <= c.invoice || "lntb" <= c.invoice)
    ensures Parse(isBase64, c.ToWwwAuthenticate()) == Ok(L402Challenge(c.macaroon, c.invoice, None))
  {
    var first, second := Param("macaroon", c.macaroon), Param(" invoice", c.invoice);
    assert first.Printable() && second.Printable() && !HasBare([first, second]);
    hide Last, Parse, Param.Name, Param.Printable, PrintAll;
    MockPrints(c);
    MockNames(c);
    ParsePrinted(isBase64, "L402 ", [first, second]);
    LastOfTwo(first, second, "macaroon");
    LastOfTwo(first, second, "invoice");
    LastOfTwo(first, second, "address");
  }

  lemma {:induction false} MockPrints(c: MockChallenge.PendingChallenge)
    ensures c.ToWwwAuthenticate()
         == "L402 " + PrintAll([Param("macaroon", c.macaroon), Param(" invoice", c.invoice)])
  {
    var ps := [Param("macaroon", c.macaroon), Param(" invoice", c.invoice)];
    assert ps[1..] == [ps[1]];
    assert PrintAll(ps) == ps[0].Print() + "," + ps[1].Print();
    assert ps[0].Print() + "," + ps[1].Print()
        == "macaroon=\"" + c.macaroon + "\", invoice=\"" + c.invoice + "\"";
  }

  lemma {:induction false} MockNames(c: MockChallenge.PendingChallenge)
    ensures Param("macaroon", c.macaroon).Name() == "macaroon"
    ensures Param(" invoice", c.invoice).Name() == "invoice"
  {
    TrimClean("macaroon", IsSpace);
    TrimClean("invoice", IsSpace);
    TrimStartDrops(" ", "invoice", IsSpace);
    assert " " + "invoice" == " invoice";
    assert Trim(" invoice") == "invoice";
    assert Lower("macaroon") == "macaroon";
    assert Lower("invoice") == "invoice";
  }

  lemma {:induction false} LastOfTwo(first: Param, second: Param, name: string)
    requires first.Param? && second.Param?
    ensures Last([first, second], name) ==
              if second.Name() == name then Some(second.value)
              else if first.Name() == name then Some(first.value) else None
  {
    LastOfConcat(first, [second], name);
    assert [first] + [second] == [first, second];
    assert [second][..0] == [];
    assert Last([second], name) == if second.Name() == name then Some(second.value) else Last([], name);
  }
}
