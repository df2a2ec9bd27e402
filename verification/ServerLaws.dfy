/** The mock server against any client: whole sequences of requests, whatever their headers. */
module ServerLaws {
  import opened Wrappers
  import opened MockChallenge
  import opened MockServer

  /** A request, with the random draw of a challenge, should one be issued. */
  datatype Hit = Hit(path: string, auth: Option<string>, preimage: string)

  function Serve(crypto: Crypto, endpoints: map<string, nat>, hits: seq<Hit>): (Registry, seq<Response>)
    requires forall h :: h in hits ==> crypto.hash(h.preimage).Some?
  {
    if |hits| == 0 then (map[], [])
    else
      var (registry, responses) := Serve(crypto, endpoints, hits[..|hits| - 1]);
      var h := hits[|hits| - 1];
      var (response, registry') := Handle(crypto, endpoints, registry, h.path, h.auth, h.preimage);
      (registry', responses + [response])
  }

  ghost predicate Draws(crypto: Crypto, hits: seq<Hit>) {
    forall h :: h in hits ==> crypto.hash(h.preimage).Some?
  }

  /** Request `j` was answered with a challenge drawn from its preimage. */
  ghost predicate Issued(crypto: Crypto, hits: seq<Hit>, responses: seq<Response>, j: nat, c: PendingChallenge) {
    && j < |hits| && j < |responses| && responses[j].status == 402
    && c.preimage == hits[j].preimage && crypto.hash(hits[j].preimage) == Some(c.paymentHash)
    && c.macaroon == crypto.macaroon(c.paymentHash)
  }

  lemma {:induction false} ServeStep(crypto: Crypto, endpoints: map<string, nat>, hits: seq<Hit>)
    requires |hits| > 0 && Draws(crypto, hits)
    ensures var (before, responses) := Serve(crypto, endpoints, hits[..|hits| - 1]);
            var (after, responses') := Serve(crypto, endpoints, hits);
            var h := hits[|hits| - 1];
            && |responses'| == |responses| + 1 && responses'[..|responses|] == responses
            && Meaning(crypto, endpoints, before, h.path, h.auth, h.preimage, responses'[|responses|], after)
  {
    var (before, _) := Serve(crypto, endpoints, hits[..|hits| - 1]);
    var h := hits[|hits| - 1];
    HandleExactly(crypto, endpoints, before, h.path, h.auth, h.preimage);
    hide Handle, Meaning;
  }

  /** Every registered challenge was issued in answer to one of the requests. */
  lemma {:induction false} RegistryIssued(crypto: Crypto, endpoints: map<string, nat>, hits: seq<Hit>)
    requires Draws(crypto, hits)
    ensures var (registry, responses) := Serve(crypto, endpoints, hits);
            && |responses| == |hits|
            && forall k :: k in registry ==> exists j: nat :: Issued(crypto, hits, responses, j, registry[k])
  {
    if |hits| > 0 {
      var n := |hits| - 1;
      RegistryIssued(crypto, endpoints, hits[..n]);
      ServeStep(crypto, endpoints, hits);
      var (before, responses) := Serve(crypto, endpoints, hits[..n]);
      var (after, responses') := Serve(crypto, endpoints, hits);
      hide Serve, Authorized;
      forall k | k in after ensures exists j: nat :: Issued(crypto, hits, responses', j, after[k]) {
        if k in before && after[k] == before[k] {
          var j: nat :| Issued(crypto, hits[..n], responses, j, before[k]);
          assert responses'[..n][j] == responses'[j];
          assert Issued(crypto, hits, responses', j, after[k]);
        } else {
          assert Issued(crypto, hits, responses', n, after[k]);
        }
      }
    }
  }

  /** No access without payment proof, whatever a client sends: a request is answered 200 only when it
      presents the macaroon of a challenge issued in an earlier answer together with a preimage of that
      challenge's payment hash. */
  lemma {:induction false} AccessIsProved(crypto: Crypto, endpoints: map<string, nat>, hits: seq<Hit>, i: nat)
    returns (j: nat, macaroon: string, preimage: string, c: PendingChallenge)
    requires Draws(crypto, hits) && i < |hits| && i < |Serve(crypto, endpoints, hits).1|
    requires Serve(crypto, endpoints, hits).1[i].status == 200
    ensures j < i && Issued(crypto, hits, Serve(crypto, endpoints, hits).1, j, c)
    ensures hits[i].auth.Some? && Presents(hits[i].auth.value, macaroon, preimage)
    ensures macaroon == c.macaroon && crypto.hash(preimage) == Some(c.paymentHash)
  {
    hide Serve, Presents, Issued;
    var n := |hits| - 1;
    var before := Serve(crypto, endpoints, hits[..n]);
    var after := Serve(crypto, endpoints, hits);
    RegistryIssued(crypto, endpoints, hits[..n]);
    RegistryIssued(crypto, endpoints, hits);
    ServeStep(crypto, endpoints, hits);
    if i < n {
      assert after.1[..n][i] == after.1[i];
      j, macaroon, preimage, c := AccessIsProved(crypto, endpoints, hits[..n], i);
    } else {
      var k;
      macaroon, preimage, k := AnsweredBacked(crypto, endpoints, before.0, hits[n], after.1[n], after.0);
      c := before.0[k];
      j :| Issued(crypto, hits[..n], before.1, j, c);
      assert j < n by { IssuedBelow(crypto, hits[..n], before.1, j, c); }
    }
    IssuedStill(crypto, hits, after.1, n, j, c);
  }

  lemma {:induction false} IssuedBelow(crypto: Crypto, hits: seq<Hit>, responses: seq<Response>, j: nat,
                                       c: PendingChallenge)
    requires Issued(crypto, hits, responses, j, c)
    ensures j < |hits|
  {
  }

  lemma {:induction false} IssuedStill(crypto: Crypto, hits: seq<Hit>, responses: seq<Response>, n: nat, j: nat,
                                       c: PendingChallenge)
    requires n <= |hits| && n <= |responses| && Issued(crypto, hits[..n], responses[..n], j, c)
    ensures Issued(crypto, hits, responses, j, c)
  {
    assert responses[..n][j] == responses[j];
  }

  lemma {:induction false} AnsweredBacked(crypto: Crypto, endpoints: map<string, nat>, registry: Registry, h: Hit,
                                          response: Response, after: Registry)
    returns (macaroon: string, preimage: string, k: string)
    requires Meaning(crypto, endpoints, registry, h.path, h.auth, h.preimage, response, after) && response.status == 200
    ensures h.auth.Some? && Presents(h.auth.value, macaroon, preimage)
    ensures k in registry && registry[k].macaroon == macaroon && crypto.hash(preimage) == Some(registry[k].paymentHash)
  {
    hide Presents;
    assert Authorized(crypto, registry, h.auth, true) by { hide Authorized; }
    macaroon, preimage :| Presents(h.auth.value, macaroon, preimage) && Backed(crypto, registry, macaroon, preimage);
    k :| k in registry && registry[k].macaroon == macaroon && crypto.hash(preimage) == Some(registry[k].paymentHash);
  }

  /** The challenges issued are kept apart by their invoices. */
  ghost predicate Apart(crypto: Crypto, endpoints: map<string, nat>, hits: seq<Hit>)
    requires Draws(crypto, hits)
  {
    |hits| == 0
    || (var before, h := hits[..|hits| - 1], hits[|hits| - 1];
        && Apart(crypto, endpoints, before)
        && (h.path in endpoints ==>
              Generate(crypto, h.preimage, endpoints[h.path]).invoice !in Serve(crypto, endpoints, before).0))
  }

  /** A registered challenge stays. */
  lemma {:induction false} ChallengeStays(crypto: Crypto, endpoints: map<string, nat>, hits: seq<Hit>, j: nat,
                                          k: string)
    requires Draws(crypto, hits) && Apart(crypto, endpoints, hits) && j < |hits|
    requires k in Serve(crypto, endpoints, hits[..j]).0
    ensures k in Serve(crypto, endpoints, hits).0
         && Serve(crypto, endpoints, hits).0[k] == Serve(crypto, endpoints, hits[..j]).0[k]
  {
    var n := |hits| - 1;
    if j < n {
      assert hits[..n][..j] == hits[..j];
      ChallengeStays(crypto, endpoints, hits[..n], j, k);
    }
    ServeGrows(crypto, endpoints, hits, k);
    hide Serve, Apart;
  }

  lemma {:induction false} ServeGrows(crypto: Crypto, endpoints: map<string, nat>, hits: seq<Hit>, k: string)
    requires |hits| > 0 && Draws(crypto, hits) && Apart(crypto, endpoints, hits)
    requires k in Serve(crypto, endpoints, hits[..|hits| - 1]).0
    ensures k in Serve(crypto, endpoints, hits).0
         && Serve(crypto, endpoints, hits).0[k] == Serve(crypto, endpoints, hits[..|hits| - 1]).0[k]
  {
    hide Validate, PrintInvoice;
  }

  lemma {:induction false} ServePrefix(crypto: Crypto, endpoints: map<string, nat>, hits: seq<Hit>, m: nat)
    requires Draws(crypto, hits) && m <= |hits|
    ensures |Serve(crypto, endpoints, hits).1| == |hits|
    ensures Serve(crypto, endpoints, hits[..m]).1 == Serve(crypto, endpoints, hits).1[..m]
    ensures Apart(crypto, endpoints, hits) ==> Apart(crypto, endpoints, hits[..m])
  {
    var n := |hits| - 1;
    if m == |hits| {
      assert hits[..m] == hits;
      RegistryIssued(crypto, endpoints, hits);
      assert Serve(crypto, endpoints, hits).1[..m] == Serve(crypto, endpoints, hits).1;
    } else {
      ServePrefix(crypto, endpoints, hits[..n], m);
      assert hits[..n][..m] == hits[..m];
      ServeStep(crypto, endpoints, hits);
      RegistryIssued(crypto, endpoints, hits);
      assert Serve(crypto, endpoints, hits).1[..n][..m] == Serve(crypto, endpoints, hits).1[..m];
      hide Serve;
    }
  }

  /** Conversely, with distinct invoices: a pair of a challenge issued in an earlier answer is answered
      200 on every protected path, however late and however often. */
  lemma {:induction false} ProofIsAnswered(crypto: Crypto, endpoints: map<string, nat>, hits: seq<Hit>, i: nat, j: nat,
                                           macaroon: string, preimage: string, c: PendingChallenge)
    requires Draws(crypto, hits) && Apart(crypto, endpoints, hits) && j < i < |hits| && hits[i].path in endpoints
    requires Issued(crypto, hits, Serve(crypto, endpoints, hits).1, j, c)
    requires hits[i].auth.Some? && Presents(hits[i].auth.value, macaroon, preimage)
    requires macaroon == c.macaroon && crypto.hash(preimage) == Some(c.paymentHash)
    ensures i < |Serve(crypto, endpoints, hits).1| && Serve(crypto, endpoints, hits).1[i].status == 200
  {
    hide Serve, Presents, Apart, Issued;
    var till, upto := hits[..i], hits[..i + 1];
    ServePrefix(crypto, endpoints, hits, i);
    ServePrefix(crypto, endpoints, hits, i + 1);
    var k := IssuedTill(crypto, endpoints, hits, i, j, c);
    assert upto[..i] == till && upto[i] == hits[i];
    ServeStep(crypto, endpoints, upto);
    BackedAnswered(crypto, endpoints, Serve(crypto, endpoints, till).0, hits[i], macaroon, preimage,
                   Serve(crypto, endpoints, upto).1[i], Serve(crypto, endpoints, upto).0);
    assert Serve(crypto, endpoints, hits).1[..i + 1][i] == Serve(crypto, endpoints, hits).1[i];
  }

  lemma {:induction false} BackedAnswered(crypto: Crypto, endpoints: map<string, nat>, registry: Registry, h: Hit,
                                          macaroon: string, preimage: string, response: Response, after: Registry)
    requires Meaning(crypto, endpoints, registry, h.path, h.auth, h.preimage, response, after)
    requires h.path in endpoints && h.auth.Some? && Presents(h.auth.value, macaroon, preimage)
    requires Backed(crypto, registry, macaroon, preimage)
    ensures response.status == 200
  {
    hide Presents, Backed;
    assert Authorized(crypto, registry, h.auth, true);
    hide Authorized;
  }

  /** A challenge issued by request `j` is registered until request `i`. */
  lemma {:induction false} IssuedTill(crypto: Crypto, endpoints: map<string, nat>, hits: seq<Hit>, i: nat, j: nat,
                                      c: PendingChallenge)
    returns (k: string)
    requires Draws(crypto, hits) && Apart(crypto, endpoints, hits) && j < i < |hits|
    requires Issued(crypto, hits, Serve(crypto, endpoints, hits).1, j, c)
    ensures k in Serve(crypto, endpoints, hits[..i]).0
    ensures var x := Serve(crypto, endpoints, hits[..i]).0[k];
            x.macaroon == c.macaroon && x.paymentHash == c.paymentHash
  {
    hide Serve, Apart;
    var first, till := hits[..j + 1], hits[..i];
    ServePrefix(crypto, endpoints, hits, j + 1);
    ServePrefix(crypto, endpoints, hits, i);
    assert Serve(crypto, endpoints, hits).1[..j + 1][j] == Serve(crypto, endpoints, hits).1[j];
    k := IssuedKept(crypto, endpoints, first, c);
    assert till[..j + 1] == first;
    if j + 1 < i {
      ChallengeStays(crypto, endpoints, till, j + 1, k);
    }
  }

  /** A challenge just issued is registered. */
  lemma {:induction false} IssuedKept(crypto: Crypto, endpoints: map<string, nat>, hits: seq<Hit>, c: PendingChallenge)
    returns (k: string)
    requires Draws(crypto, hits) && |hits| > 0
    requires Issued(crypto, hits, Serve(crypto, endpoints, hits).1, |hits| - 1, c)
    ensures k in Serve(crypto, endpoints, hits).0
    ensures var x := Serve(crypto, endpoints, hits).0[k]; x.macaroon == c.macaroon && x.paymentHash == c.paymentHash
  {
    ServeStep(crypto, endpoints, hits);
    RegistryIssued(crypto, endpoints, hits[..|hits| - 1]);
    var before, after := Serve(crypto, endpoints, hits[..|hits| - 1]).0, Serve(crypto, endpoints, hits).0;
    var h := hits[|hits| - 1];
    hide Serve, Authorized;
    var x: PendingChallenge :|
      FromDraw(crypto, x, h.preimage, endpoints[h.path]) && after == before[x.invoice := x];
    k := x.invoice;
  }
}
