/** The mock L402 server and the mock Lightning backend over one shared challenge registry. */
module MockServer {
  import opened Wrappers
  import opened Payment
  import opened MockChallenge
  import L402Token
  import Text

  /** Issued challenges by invoice. */
  type Registry = map<string, PendingChallenge>

  datatype Response = Response(status: nat, wwwAuthenticate: Option<string>)

  /** Some issued challenge accepts the pair. */
  predicate Redeemable(crypto: Crypto, registry: Registry, macaroon: string, preimage: string) {
    exists invoice | invoice in registry :: registry[invoice].ValidateAuth(crypto, macaroon, preimage)
  }

  /** `None` when the header is not an L402 authorization at all. */
  function Validate(crypto: Crypto, registry: Registry, auth: string): Option<bool> {
    match L402Token.ServerSplit(auth)
    case None => None
    case Some(pair) => Some(Redeemable(crypto, registry, pair.0, pair.1))
  }

  /** The answer to a request, and the registry after it; `preimage` is the random draw of a
      challenge, should one be issued. */
  function Handle(crypto: Crypto, endpoints: map<string, nat>, registry: Registry, path: string,
                  auth: Option<string>, preimage: string): (Response, Registry)
    requires crypto.hash(preimage).Some?
  {
    if path !in endpoints then (Response(404, None), registry)
    else
      var verdict := if auth.Some? then Validate(crypto, registry, auth.value) else None;
      match verdict
      case Some(true) => (Response(200, None), registry)
      case Some(false) => (Response(401, None), registry)
      case None =>
        var challenge := Generate(crypto, preimage, endpoints[path]);
        (Response(402, Some(challenge.ToWwwAuthenticate())), registry[challenge.invoice := challenge])
  }

  /** The payment, if the invoice is known and covered, and the balance after it. */
  function Pay(registry: Registry, balance: nat, bolt11: string): (Option<PaymentResult>, nat) {
    if bolt11 !in registry || balance < registry[bolt11].amountSats then (None, balance)
    else
      var c := registry[bolt11];
      (Some(PaymentResult(c.preimage, c.paymentHash, c.amountSats, 0)), balance - c.amountSats)
  }

  // ----- what the answers mean -----

  /** The header presents this macaroon and preimage; the first colon separates them. */
  predicate Presents(auth: string, macaroon: string, preimage: string) {
    && (auth == "L402 " + macaroon + ":" + preimage || auth == "LSAT " + macaroon + ":" + preimage)
    && ':' !in macaroon
  }

  /** Some registered challenge has this macaroon, and its payment hash is that of the preimage. */
  predicate Backed(crypto: Crypto, registry: Registry, macaroon: string, preimage: string) {
    exists k | k in registry ::
      registry[k].macaroon == macaroon && crypto.hash(preimage) == Some(registry[k].paymentHash)
  }

  /** An authorization of the right shape whose pair is, or is not, backed. */
  ghost predicate Authorized(crypto: Crypto, registry: Registry, auth: Option<string>, backed: bool) {
    auth.Some? && exists macaroon: string, preimage: string ::
      Presents(auth.value, macaroon, preimage) && Backed(crypto, registry, macaroon, preimage) == backed
  }

  /** A challenge drawn from this preimage at this price. */
  ghost predicate FromDraw(crypto: Crypto, c: PendingChallenge, preimage: string, price: nat) {
    && c.preimage == preimage && crypto.hash(preimage) == Some(c.paymentHash) && c.amountSats == price
    && c.macaroon == crypto.macaroon(c.paymentHash)
  }

  lemma {:induction false} SplitExactly(auth: string, macaroon: string, preimage: string)
    ensures L402Token.ServerSplit(auth) == Some((macaroon, preimage)) <==> Presents(auth, macaroon, preimage)
  {
    var credentials := macaroon + ":" + preimage;
    var pair := L402Token.ServerSplit(auth);
    if Presents(auth, macaroon, preimage) {
      assert auth[5..] == credentials;
      assert L402Token.StripScheme(auth) == Some(credentials);
      Text.SplitOnceFirst(macaroon, ':', preimage);
    }
    if pair == Some((macaroon, preimage)) {
      Text.SplitOnceSound(auth[5..], ':');
      assert auth == auth[..5] + auth[5..];
    }
  }

  /** What an authorization header is worth, in terms of its text and of the registered challenges. */
  lemma {:induction false} ValidateExactly(crypto: Crypto, registry: Registry, auth: string)
    ensures Validate(crypto, registry, auth) == Some(true) <==> Authorized(crypto, registry, Some(auth), true)
    ensures Validate(crypto, registry, auth) == Some(false) <==> Authorized(crypto, registry, Some(auth), false)
  {
    forall macaroon: string, preimage: string
      ensures L402Token.ServerSplit(auth) == Some((macaroon, preimage)) <==> Presents(auth, macaroon, preimage)
    {
      SplitExactly(auth, macaroon, preimage);
    }
    hide L402Token.ServerSplit, Presents;
    var pair := L402Token.ServerSplit(auth);
    if pair.Some? {
      assert Presents(auth, pair.value.0, pair.value.1);
      assert Redeemable(crypto, registry, pair.value.0, pair.value.1)
         <==> Backed(crypto, registry, pair.value.0, pair.value.1);
    }
  }

  /** The answer to a request: on a protected path 200 exactly when a backed pair is presented, 401
      exactly when another pair is, and otherwise 402 with a new challenge that is then registered. */
  ghost predicate Meaning(crypto: Crypto, endpoints: map<string, nat>, registry: Registry, path: string,
                          auth: Option<string>, preimage: string, response: Response, registry': Registry)
  {
    if path !in endpoints then response == Response(404, None) && registry' == registry
    else
      && (response == Response(200, None) <==> Authorized(crypto, registry, auth, true))
      && (response == Response(401, None) <==> Authorized(crypto, registry, auth, false))
      && (response.status == 402 <==>
          !Authorized(crypto, registry, auth, true) && !Authorized(crypto, registry, auth, false))
      && (response.status != 402 ==> registry' == registry)
      && (response.status == 402 ==>
            exists c: PendingChallenge ::
              && FromDraw(crypto, c, preimage, endpoints[path]) && registry' == registry[c.invoice := c]
              && response.wwwAuthenticate
                 == Some("L402 macaroon=\"" + c.macaroon + "\", invoice=\"" + c.invoice + "\""))
  }

  lemma {:induction false} HandleExactly(crypto: Crypto, endpoints: map<string, nat>, registry: Registry, path: string,
                                         auth: Option<string>, preimage: string)
    requires crypto.hash(preimage).Some?
    ensures var (response, registry') := Handle(crypto, endpoints, registry, path, auth, preimage);
            Meaning(crypto, endpoints, registry, path, auth, preimage, response, registry')
  {
    if path in endpoints {
      if auth.Some? {
        ValidateExactly(crypto, registry, auth.value);
      }
      var c := Generate(crypto, preimage, endpoints[path]);
      assert FromDraw(crypto, c, preimage, endpoints[path]);
      hide Validate, PrintInvoice, Authorized, FromDraw;
    }
  }

  class ChallengeRegistry {
    var challenges: Registry

    constructor ()
      ensures challenges == map[]
    {
      challenges := map[];
    }
  }

  class MockL402Server {
    const crypto: Crypto
    const endpoints: map<string, nat>
    const registry: ChallengeRegistry

    constructor (crypto: Crypto, endpoints: map<string, nat>, registry: ChallengeRegistry)
      ensures this.crypto == crypto && this.endpoints == endpoints && this.registry == registry
    {
      this.crypto, this.endpoints, this.registry := crypto, endpoints, registry;
    }

    /** Tries every issued challenge. */
    method ValidateL402Auth(auth: string) returns (r: Option<bool>)
      ensures r == Validate(crypto, registry.challenges, auth)
      ensures r == Some(true) <==> Authorized(crypto, registry.challenges, Some(auth), true)
      ensures r == Some(false) <==> Authorized(crypto, registry.challenges, Some(auth), false)
    {
      ValidateExactly(crypto, registry.challenges, auth);
      hide Authorized;
      var pair := L402Token.ServerSplit(auth);
      if pair.None? {
        return None;
      }
      var (macaroon, preimage) := pair.value;
      var pending := registry.challenges;
      while pending != map[]
        invariant pending.Keys <= registry.challenges.Keys
        invariant forall k :: k in pending ==> pending[k] == registry.challenges[k]
        invariant forall k :: k in registry.challenges && k !in pending ==>
                    !registry.challenges[k].ValidateAuth(crypto, macaroon, preimage)
        decreases |pending|
      {
        var invoice :| invoice in pending;
        if pending[invoice].ValidateAuth(crypto, macaroon, preimage) {
          return Some(true);
        }
        pending := pending - {invoice};
      }
      return Some(false);
    }

    method HandleRequest(path: string, auth: Option<string>, preimage: string) returns (response: Response)
      requires crypto.hash(preimage).Some?
      modifies registry
      ensures (response, registry.challenges)
           == Handle(crypto, endpoints, old(registry.challenges), path, auth, preimage)
      ensures Meaning(crypto, endpoints, old(registry.challenges), path, auth, preimage, response, registry.challenges)
    {
      HandleExactly(crypto, endpoints, registry.challenges, path, auth, preimage);
      hide Meaning;
      if path !in endpoints {
        return Response(404, None);
      }
      if auth.Some? {
        var result := ValidateL402Auth(auth.value);
        if result.Some? {
          return Response(if result.value then 200 else 401, None);
        }
      }
      var challenge := Generate(crypto, preimage, endpoints[path]);
      registry.challenges := registry.challenges[challenge.invoice := challenge];
      response := Response(402, Some(challenge.ToWwwAuthenticate()));
    }
  }

  class MockLnBackend {
    const registry: ChallengeRegistry
    var balance: nat

    constructor (registry: ChallengeRegistry)
      ensures this.registry == registry && balance == 1_000_000
    {
      this.registry := registry;
      balance := 1_000_000;
    }

    method SetBalance(sats: nat)
      modifies this
      ensures balance == sats
    {
      balance := sats;
    }

    method PayInvoice(bolt11: string) returns (payment: Option<PaymentResult>)
      modifies this
      ensures (payment, balance) == Pay(registry.challenges, old(balance), bolt11)
      ensures payment.Some? <==>
              bolt11 in registry.challenges && registry.challenges[bolt11].amountSats <= old(balance)
      ensures payment.None? ==> balance == old(balance)
      ensures payment.Some? ==>
        var c, p := registry.challenges[bolt11], payment.value;
        && p.preimage == c.preimage && p.paymentHash == c.paymentHash && p.amountSats == c.amountSats
        && p.feeSats == 0 && balance + c.amountSats == old(balance)
    {
      if bolt11 !in registry.challenges {
        return None;
      }
      var challenge := registry.challenges[bolt11];
      if balance < challenge.amountSats {
        return None;
      }
      balance := balance - challenge.amountSats;
      payment := Some(PaymentResult(challenge.preimage, challenge.paymentHash, challenge.amountSats, 0));
    }
  }
}
