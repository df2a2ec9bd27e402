/** The `Authorization: L402 <macaroon>:<preimage>` header. */
module L402Token {
  import opened Wrappers
  import opened Text

  datatype TokenError = BadScheme | NoColon | EmptyMacaroon | EmptyPreimage

  datatype L402Token = L402Token(macaroon: string, preimage: string) {
    function ToHeaderValue(): string {
      "L402 " + macaroon + ":" + preimage
    }
  }

  function StripScheme(header: string): Option<string> {
    match StripPrefix(header, "L402 ")
    case Some(rest) => Some(rest)
    case None => StripPrefix(header, "LSAT ")
  }

  /** How the client library reads the header. */
  function FromHeader(header: string): Result<L402Token, TokenError> {
    match StripScheme(Trim(header))
    case None => Err(BadScheme)
    case Some(credentials) =>
      match SplitOnce(credentials, ':')
      case None => Err(NoColon)
      case Some(pair) =>
        if |pair.0| == 0 then Err(EmptyMacaroon)
        else if |pair.1| == 0 then Err(EmptyPreimage)
        else Ok(L402Token(pair.0, pair.1))
  }

  /** How the mock server reads it: no trimming, no emptiness checks. */
  function ServerSplit(header: string): Option<(string, string)> {
    match StripScheme(header)
    case None => None
    case Some(credentials) => SplitOnce(credentials, ':')
  }

  lemma {:induction false} SplitCredentials(t: L402Token)
    ensures SplitOnce(t.macaroon + ":" + t.preimage, ':') == Some((t.macaroon, t.preimage)) <==> ':' !in t.macaroon
  {
    var credentials := t.macaroon + ":" + t.preimage;
    if ':' !in t.macaroon {
      SplitOnceFirst(t.macaroon, ':', t.preimage);
    } else {
      SplitOnceSound(credentials, ':');
    }
  }

  /** The server recovers exactly the colon-free macaroons. */
  lemma {:induction false} ServerRoundTrip(t: L402Token)
    ensures ServerSplit(t.ToHeaderValue()) == Some((t.macaroon, t.preimage)) <==> ':' !in t.macaroon
  {
    HeaderShape(t);
    SplitCredentials(t);
  }

  lemma {:induction false} HeaderShape(t: L402Token)
    ensures StripScheme(t.ToHeaderValue()) == Some(t.macaroon + ":" + t.preimage)
  {
    var header := t.ToHeaderValue();
    assert header == "L402 " + (t.macaroon + ":" + t.preimage);
    assert header[|"L402 "|..] == t.macaroon + ":" + t.preimage;
  }

  /** The library recovers a token exactly when both halves are non-empty, the macaroon has no
      colon and the preimage does not end in white space. */
  lemma {:induction false} LibraryRoundTrip(t: L402Token)
    ensures FromHeader(t.ToHeaderValue()) == Ok(t) <==>
              && |t.macaroon| > 0 && ':' !in t.macaroon
              && |t.preimage| > 0 && !IsSpace(t.preimage[|t.preimage| - 1])
  {
    var header := t.ToHeaderValue();
    var kept := TrimEnd(t.preimage, IsSpace);
    TrimHeader(t);
    HeaderShape(L402Token(t.macaroon, kept));
    SplitCredentials(L402Token(t.macaroon, kept));
    SplitOnceSound(t.macaroon + ":" + kept, ':');
    TrimEndShorter(t.preimage, IsSpace);
  }

  /** Of any header: the library reads a token exactly when, white space around it aside, the header is
      one of the two schemes and that pair, separated by the first colon, both halves non-empty. */
  lemma {:induction false} ReadExactly(header: string, t: L402Token)
    ensures FromHeader(header) == Ok(t) <==>
              && (Trim(header) == "L402 " + (t.macaroon + ":" + t.preimage)
                  || Trim(header) == "LSAT " + (t.macaroon + ":" + t.preimage))
              && |t.macaroon| > 0 && ':' !in t.macaroon && |t.preimage| > 0
  {
    var text, credentials := Trim(header), t.macaroon + ":" + t.preimage;
    SplitCredentials(t);
    if text == "L402 " + credentials || text == "LSAT " + credentials {
      assert text[5..] == credentials;
    }
    if StripScheme(text).Some? {
      assert text == text[..5] + text[5..];
      SplitOnceSound(text[5..], ':');
    }
    hide Trim;
  }

  lemma {:induction false} TrimHeader(t: L402Token)
    ensures Trim(t.ToHeaderValue()) == L402Token(t.macaroon, TrimEnd(t.preimage, IsSpace)).ToHeaderValue()
  {
    var fixed := "L402 " + t.macaroon + ":";
    assert t.ToHeaderValue() == fixed + t.preimage;
    assert t.ToHeaderValue()[0] == 'L';
    TrimEndOfConcat(fixed, t.preimage, IsSpace);
  }

  lemma {:induction false} TrimEndOfConcat(fixed: string, tail: string, p: char -> bool)
    requires |fixed| > 0 && !p(fixed[|fixed| - 1])
    ensures TrimEnd(fixed + tail, p) == fixed + TrimEnd(tail, p)
    decreases |tail|
  {
    var s := fixed + tail;
    if |tail| > 0 {
      assert s[|s| - 1] == tail[|tail| - 1];
      if p(tail[|tail| - 1]) {
        assert s[..|s| - 1] == fixed + tail[..|tail| - 1];
        TrimEndOfConcat(fixed, tail[..|tail| - 1], p);
      }
    } else {
      assert s == fixed;
    }
  }

  lemma {:induction false} TrimEndShorter(s: string, p: char -> bool)
    ensures |TrimEnd(s, p)| <= |s|
    ensures TrimEnd(s, p) == s <==> |s| == 0 || !p(s[|s| - 1])
  {
    if |s| > 0 && p(s[|s| - 1]) {
      TrimEndShorter(s[..|s| - 1], p);
    }
  }
}
