/** Paying once, in the closed system under concurrency: when it holds, and why not otherwise. */
module ConcurrentOnce {
  import opened Wrappers
  import opened TokenStore
  import opened Engine
  import opened L402Challenge
  import opened MockServer
  import opened ClosedSystem
  import opened ClosedLaws
  import opened ClosedTheorems
  import opened ConcurrentSystem
  import opened ConcurrentLaws
  import opened ConcurrentTheorems
  import EngineLaws
  import Budget
  import MockChallenge
  import StoreLaws

  // ----- no url is paid for twice -----

  /** A request arrives only when no other for its url is under way. */
  predicate AloneMove(s: Net, m: Move) {
    m.Arrive? && m.id !in s.engine.tasks ==>
      forall id | id in s.engine.tasks :: s.engine.tasks[id].url == m.url ==> s.engine.tasks[id].pc.Done?
  }

  ghost predicate AlonePlay(w: World, capacity: nat, balance: nat, moves: seq<Move>) {
    |moves| == 0
    || (var before := moves[..|moves| - 1];
        && AlonePlay(w, capacity, balance, before)
        && AloneMove(Play(w, capacity, balance, before), moves[|moves| - 1]))
  }

  /** The protected urls that are asked for. */
  ghost function Asked(w: World, moves: seq<Move>): set<string> {
    set m | m in moves && m.Arrive? && w.path(m.url) in w.endpoints :: m.url
  }

  ghost predicate Unpaid(log: seq<Fact>, url: string) {
    forall f :: f in log && f.Paid? ==> f.url != url
  }

  /** On the way to paying. */
  predicate Buying(pc: Pc) {
    pc.PlainTry? || pc.Charging? || pc.Paying?
  }

  ghost predicate Available(s: State, url: string) {
    url in s.cache.tokens || exists id :: id in s.tasks && s.tasks[id].url == url && s.tasks[id].pc.Storing?
  }

  ghost predicate OneEach(tasks: map<nat, Task>) {
    forall i, j :: i in tasks && j in tasks && i != j && !tasks[i].pc.Done? && !tasks[j].pc.Done? ==>
      tasks[i].url != tasks[j].url
  }

  ghost predicate PaidOnce(log: seq<Fact>) {
    forall i, j :: 0 <= i < j < |log| && log[i].Paid? && log[j].Paid? ==> log[i].url != log[j].url
  }

  ghost predicate Roomy(w: World, s: State, all: set<string>) {
    && Valid(s.cache) && s.cache.tokens.Keys <= all && |all| <= s.cache.Room()
    && forall id :: id in s.tasks && w.path(s.tasks[id].url) in w.endpoints ==> s.tasks[id].url in all
  }

  ghost predicate Once(s: State) {
    && OneEach(s.tasks) && PaidOnce(s.log)
    && (forall id :: id in s.tasks && Buying(s.tasks[id].pc) ==> Unpaid(s.log, s.tasks[id].url))
    && (forall f :: f in s.log && f.Paid? ==> Available(s, f.url))
  }

  lemma {:induction false} PutKeys(cache: Cache, url: string, token: Token, urls: set<string>)
    requires Valid(cache) && cache.tokens.Keys <= urls && url in urls && |urls| <= cache.Room()
    ensures cache.Put(url, token).tokens.Keys == cache.tokens.Keys + {url}
  {
    if url !in cache.tokens {
      PutFits(cache, url, token, urls);
    }
  }

  /** The store after a delivered answer: only a bought token goes in, and nothing goes out. */
  lemma {:induction false} StoreAfter(w: World, registry: Registry, s: State, id: nat, reply: Reply, all: set<string>)
    requires id in s.tasks && TaskOk(w, registry, s.tasks[id], Some(reply)) && Roomy(w, s, all)
    ensures var s' := Advance(w.cfg, s, id, reply);
            && Valid(s'.cache) && s'.cache.capacity == s.cache.capacity
            && s'.cache.tokens.Keys == s.cache.tokens.Keys + if s.tasks[id].pc.Storing? then {s.tasks[id].url} else {}
  {
    hide Good, FirstAnswer, Cache.Put, Cache.Remove, Cache.Get, Valid, OnClock, Expected, Parse, Settled, Offered;
    var t := s.tasks[id];
    if t.pc.Storing? {
      var token := TokenOf(t.pc.challenge, t.pc.payment);
      assert w.path(t.url) in w.endpoints by { SettledProtected(w, registry, t); }
      hide Advance, TaskOk;
      StoreStep(w, s, id);
      PutKeys(s.cache, t.url, token, all);
      StoreLaws.PutValid(s.cache, t.url, token);
      PutCapacity(s.cache, t.url, token);
    } else if t.pc.Charging? {
      EngineLaws.OnClockIs(w.cfg, s, id, t.pc.challenge, reply.now);
    }
  }

  lemma {:induction false} SettledProtected(w: World, registry: Registry, t: Task)
    requires t.pc.Storing? && Settled(w, registry, t.url, t.pc.challenge, t.pc.payment)
    ensures w.path(t.url) in w.endpoints
  {
  }

  /** Where a delivered answer takes its request. */
  lemma {:induction false} PcAfter(w: World, registry: Registry, s: State, id: nat, reply: Reply)
    requires id in s.tasks && TaskOk(w, registry, s.tasks[id], Some(reply))
    ensures var s' := Advance(w.cfg, s, id, reply);
            && s'.tasks.Keys == s.tasks.Keys && s'.tasks[id].url == s.tasks[id].url
            && var pc, pc' := s.tasks[id].pc, s'.tasks[id].pc;
            && !pc.Done?
            && (Buying(pc') ==> Buying(pc) || (pc.Lookup? && s.tasks[id].url !in s.cache.tokens))
            && (pc.Paying? ==> !Buying(pc')) && (pc.Paying? && reply.PayReply? ==> pc'.Storing?)
  {
    hide Good, FirstAnswer, Cache.Put, Cache.Remove, OnClock, Expected, Parse, Settled, Offered;
    var t := s.tasks[id];
    if t.pc.Charging? {
      EngineLaws.OnClockIs(w.cfg, s, id, t.pc.challenge, reply.now);
      DecisionUnpaid(w, s, id, t.pc.challenge, reply.now);
    }
  }

  lemma {:induction false} DeliverRoomy(w: World, registry: Registry, s: State, id: nat, reply: Reply, all: set<string>)
    requires id in s.tasks && TaskOk(w, registry, s.tasks[id], Some(reply)) && Roomy(w, s, all)
    ensures Roomy(w, Advance(w.cfg, s, id, reply), all)
  {
    var s' := Advance(w.cfg, s, id, reply);
    assert s.tasks[id].pc.Storing? ==> w.path(s.tasks[id].url) in w.endpoints by { hide Advance; }
    hide Advance, TaskOk, Valid;
    StoreAfter(w, registry, s, id, reply, all);
    PcAfter(w, registry, s, id, reply);
    forall k | k in s'.tasks && w.path(s'.tasks[k].url) in w.endpoints ensures s'.tasks[k].url in all {
      if k != id {
        AdvanceElsewhere(w, s, id, reply, k);
      }
    }
  }

  /** The step of one request seen from the outside. */
  ghost predicate Steps(s: State, s': State, id: nat, facts: seq<Fact>) {
    && id in s.tasks && s'.tasks.Keys == s.tasks.Keys && s'.tasks[id].url == s.tasks[id].url
    && (forall k :: k in s.tasks && k != id ==> s'.tasks[k] == s.tasks[k])
    && s'.log == s.log + facts && s.cache.tokens.Keys <= s'.cache.tokens.Keys
    && var t, t' := s.tasks[id], s'.tasks[id];
    && !t.pc.Done?
    && (Buying(t'.pc) ==> Buying(t.pc) || (t.pc.Lookup? && t.url !in s.cache.tokens))
    && (t.pc.Storing? ==> t.url in s'.cache.tokens)
    && if |facts| == 1 && facts[0].Paid? then facts[0].url == t.url && t.pc.Paying? && t'.pc.Storing?
       else forall f :: f in facts ==> !f.Paid?
  }

  lemma {:induction false} StepsAvailable(s: State, s': State, id: nat, facts: seq<Fact>, url: string)
    requires Steps(s, s', id, facts) && Available(s, url)
    ensures Available(s', url)
  {
    if url !in s.cache.tokens {
      var k :| k in s.tasks && s.tasks[k].url == url && s.tasks[k].pc.Storing?;
      if k != id {
        assert s'.tasks[k] == s.tasks[k];
      }
    }
  }

  lemma {:induction false} OneEachKeeps(s: State, s': State, id: nat, facts: seq<Fact>)
    requires Steps(s, s', id, facts) && OneEach(s.tasks)
    ensures OneEach(s'.tasks)
  {
    forall i, j | i in s'.tasks && j in s'.tasks && i != j && !s'.tasks[i].pc.Done? && !s'.tasks[j].pc.Done?
      ensures s'.tasks[i].url != s'.tasks[j].url
    {
      assert !s.tasks[i].pc.Done? && !s.tasks[j].pc.Done?;
    }
  }

  /** A request on the way to paying is for a url never paid for. */
  lemma {:induction false} BuyingUnpaid(s: State, s': State, id: nat, facts: seq<Fact>, k: nat)
    requires Steps(s, s', id, facts) && Once(s) && k in s'.tasks && Buying(s'.tasks[k].pc)
    ensures Unpaid(s'.log, s'.tasks[k].url)
  {
    var url := s'.tasks[k].url;
    assert Unpaid(s.log, url) by {
      if k == id && !Buying(s.tasks[id].pc) {
        forall f | f in s.log && f.Paid? ensures f.url != url {
          assert Available(s, f.url);
        }
      }
    }
    forall f | f in s'.log && f.Paid? ensures f.url != url {
      if f !in s.log {
        assert f in facts && k != id;
        assert s'.tasks[k] == s.tasks[k];
      }
    }
  }

  lemma {:induction false} OnceKeeps(s: State, s': State, id: nat, facts: seq<Fact>)
    requires Steps(s, s', id, facts) && Once(s)
    ensures Once(s')
  {
    OneEachKeeps(s, s', id, facts);
    forall k | k in s'.tasks && Buying(s'.tasks[k].pc) ensures Unpaid(s'.log, s'.tasks[k].url) {
      BuyingUnpaid(s, s', id, facts, k);
    }
    forall f | f in s'.log && f.Paid? ensures Available(s', f.url) {
      if f in s.log {
        StepsAvailable(s, s', id, facts, f.url);
      } else {
        assert f in facts;
      }
    }
    assert PaidOnce(s'.log) by { PaidOnceKeeps(s, s', id, facts); }
    hide Steps, Available, Unpaid, OneEach, PaidOnce;
  }

  lemma {:induction false} PaidOnceKeeps(s: State, s': State, id: nat, facts: seq<Fact>)
    requires Steps(s, s', id, facts) && Once(s)
    ensures PaidOnce(s'.log)
  {
    forall i, j | 0 <= i < j < |s'.log| && s'.log[i].Paid? && s'.log[j].Paid?
      ensures s'.log[i].url != s'.log[j].url
    {
      if j >= |s.log| {
        assert s'.log[j] in facts;
        assert i < |s.log| && s'.log[i] == s.log[i] && s.log[i] in s.log;
        assert Unpaid(s.log, s.tasks[id].url);
      }
    }
  }

  lemma {:induction false} DeliverOnce(w: World, registry: Registry, s: State, id: nat, reply: Reply, all: set<string>)
    requires id in s.tasks && TaskOk(w, registry, s.tasks[id], Some(reply)) && Roomy(w, s, all) && Once(s)
    ensures Once(Advance(w.cfg, s, id, reply))
  {
    hide Advance, TaskOk, Roomy, Once, Valid;
    var s' := Advance(w.cfg, s, id, reply);
    var facts := AdvanceFacts(w, s, id, reply);
    StoreAfter(w, registry, s, id, reply, all);
    PcAfter(w, registry, s, id, reply);
    forall k | k in s.tasks && k != id ensures s'.tasks[k] == s.tasks[k] {
      AdvanceElsewhere(w, s, id, reply, k);
    }
    assert |facts| == 1 && facts[0].Paid? ==> s.tasks[id].pc.Paying? && reply.PayReply? by {
      if |facts| == 1 {
        assert facts[0] in facts;
      }
    }
    assert Steps(s, s', id, facts);
    OnceKeeps(s, s', id, facts);
  }

  lemma {:induction false} ArriveOnce(w: World, s: Net, m: Move, all: set<string>)
    requires m.Arrive? && AloneMove(s, m) && Once(s.engine) && Roomy(w, s.engine, all)
    requires w.path(m.url) in w.endpoints ==> m.url in all
    ensures Once(Moved(w, s, m).engine) && Roomy(w, Moved(w, s, m).engine, all)
  {
    var s' := Moved(w, s, m).engine;
    if m.id !in s.engine.tasks {
      forall f | f in s'.log && f.Paid? ensures Available(s', f.url) {
        assert Available(s.engine, f.url);
        if f.url !in s.engine.cache.tokens {
          var k :| k in s.engine.tasks && s.engine.tasks[k].url == f.url && s.engine.tasks[k].pc.Storing?;
          assert s'.tasks[k] == s.engine.tasks[k];
        }
      }
      hide Available, Unpaid, PaidOnce, Valid;
    }
  }

  lemma {:induction false} MoveOnce(w: World, s: Net, m: Move, all: set<string>)
    requires Sound(w, s) && AloneMove(s, m) && Once(s.engine) && Roomy(w, s.engine, all)
    requires m.Arrive? && w.path(m.url) in w.endpoints ==> m.url in all
    ensures Once(Moved(w, s, m).engine) && Roomy(w, Moved(w, s, m).engine, all)
  {
    match m
    case Arrive(_, _) => ArriveOnce(w, s, m, all);
    case Work(_, _, _) => hide Once, Roomy, Answer, Sound;
    case Deliver(id) =>
      if id in s.inflight {
        assert ReplyTo(s, id) == Some(s.inflight[id]);
        hide Once, Roomy, TaskOk, Advance;
        DeliverOnce(w, s.registry, s.engine, id, s.inflight[id], all);
        DeliverRoomy(w, s.registry, s.engine, id, s.inflight[id], all);
      }
  }

  lemma {:induction false} PlayOnce(w: World, capacity: nat, balance: nat, moves: seq<Move>, all: set<string>)
    requires Sane(w) && FreshPlay(w, capacity, balance, moves) && AlonePlay(w, capacity, balance, moves)
    requires Asked(w, moves) <= all && |all| <= Max(capacity, 1)
    ensures var s := Play(w, capacity, balance, moves).engine; Once(s) && Roomy(w, s, all)
  {
    if |moves| > 0 {
      var before, m := moves[..|moves| - 1], moves[|moves| - 1];
      assert m in moves && Asked(w, before) <= Asked(w, moves);
      assert m.Arrive? && w.path(m.url) in w.endpoints ==> m.url in Asked(w, moves);
      hide Sane, Sound, Moved, FreshMove, AloneMove, Once, Roomy, Asked;
      PlaySound(w, capacity, balance, before);
      PlayOnce(w, capacity, balance, before, all);
      MoveOnce(w, Play(w, capacity, balance, before), m, all);
    }
  }

  /** With store capacity for the distinct protected urls, and no two requests for one url at a time,
      no url is ever paid for twice, however the requests for different urls interleave. */
  lemma {:induction false} ConcurrentlyPaidOnce(w: World, capacity: nat, balance: nat, moves: seq<Move>)
    requires Sane(w) && FreshPlay(w, capacity, balance, moves) && AlonePlay(w, capacity, balance, moves)
    requires |Asked(w, moves)| <= Max(capacity, 1)
    ensures PaidOnce(Play(w, capacity, balance, moves).engine.log)
  {
    PlayOnce(w, capacity, balance, moves, Asked(w, moves));
    hide Play;
  }

  // ----- and why not otherwise -----

  ghost function SysOf(s: Net): Sys {
    Sys(s.engine, s.registry, s.balance)
  }

  /** An answer computed and delivered at once. */
  function Both(id: nat, r: Req): seq<Move> {
    [Work(id, r.now, r.plain), Deliver(id)]
  }

  lemma {:induction false} PlayBoth(w: World, capacity: nat, balance: nat, moves: seq<Move>, id: nat, r: Req)
    requires var s := Play(w, capacity, balance, moves);
             && FreshPlay(w, capacity, balance, moves) && Drawn(w, r) && Awaits(s, id)
             && (s.engine.tasks[id].pc.PlainTry? ==>
                   w.path(s.engine.tasks[id].url) == w.path(r.url) && FreshDraw(w, s.registry, r))
             && !s.engine.tasks[id].pc.CachedTry? && !s.engine.tasks[id].pc.Retrying?
    ensures var s, s' := Play(w, capacity, balance, moves), Play(w, capacity, balance, moves + Both(id, r));
            && SysOf(s') == Tick(w, SysOf(s), id, r) && s'.inflight == s.inflight
            && FreshPlay(w, capacity, balance, moves + Both(id, r))
  {
    var s := Play(w, capacity, balance, moves);
    var middle := moves + [Work(id, r.now, r.plain)];
    assert middle[..|moves|] == moves;
    assert moves + Both(id, r) == middle + [Deliver(id)] && (middle + [Deliver(id)])[..|middle|] == middle;
    AnswerSame(w, SysOf(s), id, r);
    hide Answer, Apply, MockChallenge.Generate;
    var s1 := Play(w, capacity, balance, middle);
    assert s1.inflight - {id} == s.inflight;
  }

  lemma {:induction false} AnswerSame(w: World, sys: Sys, id: nat, r: Req)
    requires Drawn(w, r) && id in sys.engine.tasks
    requires !sys.engine.tasks[id].pc.CachedTry? && !sys.engine.tasks[id].pc.Retrying?
    ensures Answer(w, sys, id, Req("", r.now, r.plain, r.plain, r.plain)) == Answer(w, sys, id, r)
    ensures Answer(w, sys, id, r).1.engine == sys.engine
  {
    hide Handle;
  }

  /** Requests 0 and 1 are where these program counters say, nothing is in flight. */
  ghost predicate Racing(w: World, s: Net, r0: Req, r1: Req, pc0: Pc, pc1: Pc, c: Core) {
    && s.inflight == map[]
    && At(w, SysOf(s), 0, r0, pc0, c) && At(w, SysOf(s), 1, r1, pc1, c)
  }

  lemma {:induction false} TickElsewhere(w: World, sys: Sys, id: nat, r: Req, other: nat)
    requires Drawn(w, r) && id in sys.engine.tasks && other in sys.engine.tasks && other != id
    ensures var sys' := Tick(w, sys, id, r);
            other in sys'.engine.tasks && sys'.engine.tasks[other] == sys.engine.tasks[other]
  {
    var (reply, _) := Answer(w, sys, id, r);
    AdvanceElsewhere(w, sys.engine, id, reply, other);
    hide Answer, Advance;
  }

  /** One of the two moves on; `0` says which. */
  lemma {:induction false} RaceStep(w: World, capacity: nat, balance: nat, moves: seq<Move>, r0: Req, r1: Req,
                                    pc0: Pc, pc1: Pc, c: Core, id: nat, pc': Pc, c': Core)
    returns (moves': seq<Move>)
    requires FreshPlay(w, capacity, balance, moves) && Drawn(w, r0) && Drawn(w, r1) && id < 2
    requires Racing(w, Play(w, capacity, balance, moves), r0, r1, pc0, pc1, c)
    requires var pc, r := if id == 0 then pc0 else pc1, if id == 0 then r0 else r1;
             && !pc.CachedTry? && !pc.Retrying? && !pc.Done? && (pc.PlainTry? ==> FreshDraw(w, c.registry, r))
             && At(w, Tick(w, SysOf(Play(w, capacity, balance, moves)), id, r), id, r, pc', c')
    ensures FreshPlay(w, capacity, balance, moves')
    ensures Racing(w, Play(w, capacity, balance, moves'), r0, r1, if id == 0 then pc' else pc0,
                   if id == 0 then pc1 else pc', c')
  {
    var r := if id == 0 then r0 else r1;
    hide Tick, Play, FreshPlay, FreshDraw;
    PlayBoth(w, capacity, balance, moves, id, r);
    moves' := moves + Both(id, r);
    TickElsewhere(w, SysOf(Play(w, capacity, balance, moves)), id, r, 1 - id);
  }

  /** Both requests from one program counter to the next; `c0`, `c1`, `c2` are the lasting parts. */
  lemma {:induction false} RaceSetup(w: World, capacity: nat, balance: nat, r0: Req, r1: Req) returns (moves: seq<Move>)
    requires r0.url == r1.url
    ensures FreshPlay(w, capacity, balance, moves)
    ensures Racing(w, Play(w, capacity, balance, moves), r0, r1, Lookup, Lookup, CoreOf(Start(capacity, balance)))
  {
    var first, second := Arrive(0, r0.url), Arrive(1, r1.url);
    moves := [first, second];
    assert moves[..1] == [first] && [first][..0] == [];
    assert Play(w, capacity, balance, []) == Opened(capacity, balance);
    assert FreshPlay(w, capacity, balance, []) && FreshPlay(w, capacity, balance, [first]);
  }

  /** Up to both payments issued. */
  lemma {:induction false} RaceToPay(w: World, capacity: nat, balance: nat, r0: Req, r1: Req) returns (moves: seq<Move>)
    requires Sane(w) && Drawn(w, r0) && Drawn(w, r1) && w.cfg.budget == Budget.Unlimited()
    requires r0.url == r1.url && w.path(r0.url) in w.endpoints && InvoiceOf(w, r0) != InvoiceOf(w, r1)
    ensures FreshPlay(w, capacity, balance, moves)
    ensures exists c: Core ::
              && Racing(w, Play(w, capacity, balance, moves), r0, r1, Paying(Offer(w, r0)), Paying(Offer(w, r1)), c)
              && c == WithOffer(w, c, r0) && c == WithOffer(w, c, r1) && c.balance == balance
  {
    var c0 := CoreOf(Start(capacity, balance));
    var c1 := WithOffer(w, c0, r0);
    var c2 := WithOffer(w, c1, r1);
    assert FreshDraw(w, c0.registry, r0) && FreshDraw(w, c1.registry, r1);
    moves := RaceSetup(w, capacity, balance, r0, r1);
    hide At, Tick, Play, FreshPlay, FreshDraw, Offer, WithOffer, Sane, CoreOf, Budget.Judge, Budget.Record;
    assert r0.url !in c0.cache.tokens by { EmptyStart(capacity, balance, r0.url); }
    moves := RaceLookup(w, capacity, balance, moves, r0, r1, c0);
    RacingAt(w, Play(w, capacity, balance, moves), r0, r1, PlainTry, PlainTry, c0);
    ProtectedTick(w, SysOf(Play(w, capacity, balance, moves)), 0, r0, c0);
    moves := RaceStep(w, capacity, balance, moves, r0, r1, PlainTry, PlainTry, c0, 0, Charging(Offer(w, r0)), c1);
    RacingAt(w, Play(w, capacity, balance, moves), r0, r1, Charging(Offer(w, r0)), PlainTry, c1);
    ProtectedTick(w, SysOf(Play(w, capacity, balance, moves)), 1, r1, c1);
    moves := RaceStep(w, capacity, balance, moves, r0, r1, Charging(Offer(w, r0)), PlainTry, c1, 1,
                      Charging(Offer(w, r1)), c2);
    var c4;
    moves, c4 := RaceCharge(w, capacity, balance, moves, r0, r1, c2);
    OffersHeld(w, c0, r0, r1, c4);
  }

  lemma {:induction false} EmptyStart(capacity: nat, balance: nat, url: string)
    ensures url !in CoreOf(Start(capacity, balance)).cache.tokens
  {
  }

  lemma {:induction false} OffersHeld(w: World, c: Core, r0: Req, r1: Req, c': Core)
    requires Drawn(w, r0) && Drawn(w, r1) && InvoiceOf(w, r0) != InvoiceOf(w, r1)
    requires c'.registry == WithOffer(w, WithOffer(w, c, r0), r1).registry
    ensures c' == WithOffer(w, c', r0) && c' == WithOffer(w, c', r1)
  {
    var x, y := MockChallenge.Generate(w.crypto, r0.plain, PriceOf(w, r0.url)),
                MockChallenge.Generate(w.crypto, r1.plain, PriceOf(w, r1.url));
    hide MockChallenge.Generate;
    assert c'.registry == c.registry[x.invoice := x][y.invoice := y];
    assert c'.registry[x.invoice := x] == c'.registry && c'.registry[y.invoice := y] == c'.registry;
  }

  lemma {:induction false} RacingAt(w: World, s: Net, r0: Req, r1: Req, pc0: Pc, pc1: Pc, c: Core)
    requires Racing(w, s, r0, r1, pc0, pc1, c)
    ensures At(w, SysOf(s), 0, r0, pc0, c) && At(w, SysOf(s), 1, r1, pc1, c)
  {
  }

  lemma {:induction false} RaceLookup(w: World, capacity: nat, balance: nat, before: seq<Move>, r0: Req, r1: Req,
                                      c: Core)
    returns (moves: seq<Move>)
    requires FreshPlay(w, capacity, balance, before) && Drawn(w, r0) && Drawn(w, r1)
    requires Racing(w, Play(w, capacity, balance, before), r0, r1, Lookup, Lookup, c)
    requires r0.url == r1.url && r0.url !in c.cache.tokens
    ensures FreshPlay(w, capacity, balance, moves)
    ensures Racing(w, Play(w, capacity, balance, moves), r0, r1, PlainTry, PlainTry, c)
  {
    hide At, Tick, Play, FreshPlay, FreshDraw;
    moves := before;
    RacingAt(w, Play(w, capacity, balance, moves), r0, r1, Lookup, Lookup, c);
    LookupTick(w, SysOf(Play(w, capacity, balance, moves)), 0, r0, c);
    moves := RaceStep(w, capacity, balance, moves, r0, r1, Lookup, Lookup, c, 0, PlainTry, c);
    RacingAt(w, Play(w, capacity, balance, moves), r0, r1, PlainTry, Lookup, c);
    LookupTick(w, SysOf(Play(w, capacity, balance, moves)), 1, r1, c);
    moves := RaceStep(w, capacity, balance, moves, r0, r1, PlainTry, Lookup, c, 1, PlainTry, c);
  }

  lemma {:induction false} UnlimitedAccepts(t: Budget.Tracker, call: Budget.Call)
    ensures Budget.Judge(Budget.CODE, Budget.Unlimited(), t, call).Accepted?
  {
  }

  lemma {:induction false} RaceCharge(w: World, capacity: nat, balance: nat, before: seq<Move>, r0: Req, r1: Req,
                                      c: Core)
    returns (moves: seq<Move>, c': Core)
    requires Sane(w) && Drawn(w, r0) && Drawn(w, r1) && w.cfg.budget == Budget.Unlimited()
    requires r0.url == r1.url && w.path(r0.url) in w.endpoints && FreshPlay(w, capacity, balance, before)
    requires Racing(w, Play(w, capacity, balance, before), r0, r1, Charging(Offer(w, r0)), Charging(Offer(w, r1)), c)
    ensures FreshPlay(w, capacity, balance, moves) && c'.registry == c.registry && c'.balance == c.balance
    ensures Racing(w, Play(w, capacity, balance, moves), r0, r1, Paying(Offer(w, r0)), Paying(Offer(w, r1)), c')
  {
    hide At, Tick, Play, FreshPlay, FreshDraw, Offer, Sane, Budget.Judge, Budget.Record, PriceOf;
    var call0 := Budget.Call(r0.now, PriceOf(w, r0.url), w.host(r0.url));
    var call1 := Budget.Call(r1.now, PriceOf(w, r1.url), w.host(r1.url));
    moves := before;
    RacingAt(w, Play(w, capacity, balance, moves), r0, r1, Charging(Offer(w, r0)), Charging(Offer(w, r1)), c);
    ChargeTick(w, SysOf(Play(w, capacity, balance, moves)), 0, r0, c);
    UnlimitedAccepts(c.tracker, call0);
    var c1 := c.(tracker := Budget.Record(Budget.CODE, c.tracker, call0));
    moves := RaceStep(w, capacity, balance, moves, r0, r1, Charging(Offer(w, r0)), Charging(Offer(w, r1)), c, 0,
                      Paying(Offer(w, r0)), c1);
    RacingAt(w, Play(w, capacity, balance, moves), r0, r1, Paying(Offer(w, r0)), Charging(Offer(w, r1)), c1);
    ChargeTick(w, SysOf(Play(w, capacity, balance, moves)), 1, r1, c1);
    UnlimitedAccepts(c1.tracker, call1);
    c' := c1.(tracker := Budget.Record(Budget.CODE, c1.tracker, call1));
    moves := RaceStep(w, capacity, balance, moves, r0, r1, Paying(Offer(w, r0)), Charging(Offer(w, r1)), c1, 1,
                      Paying(Offer(w, r1)), c');
  }

  /** Two requests for one url under way together pay twice in some play, whatever the capacity:
      given an unlimited budget and the means, the condition of `ConcurrentlyPaidOnce` is needed. */
  lemma {:induction false} OverlapPaysTwice(w: World, capacity: nat, balance: nat, r0: Req, r1: Req)
    returns (moves: seq<Move>)
    requires Sane(w) && Drawn(w, r0) && Drawn(w, r1) && w.cfg.budget == Budget.Unlimited()
    requires r0.url == r1.url && w.path(r0.url) in w.endpoints && InvoiceOf(w, r0) != InvoiceOf(w, r1)
    requires 2 * PriceOf(w, r0.url) <= balance
    ensures FreshPlay(w, capacity, balance, moves)
    ensures !PaidOnce(Play(w, capacity, balance, moves).engine.log)
  {
    hide At, Tick, Play, FreshPlay, FreshDraw, Offer, WithOffer, Sane, PriceOf, InvoiceOf, PaidOnce;
    moves := RaceToPay(w, capacity, balance, r0, r1);
    var price := PriceOf(w, r0.url);
    var pay0, pay1 := Storing(Offer(w, r0), PaymentFor(w, r0)), Storing(Offer(w, r1), PaymentFor(w, r1));
    hide PaymentFor;
    var c: Core :|
      && Racing(w, Play(w, capacity, balance, moves), r0, r1, Paying(Offer(w, r0)), Paying(Offer(w, r1)), c)
      && c == WithOffer(w, c, r0) && c == WithOffer(w, c, r1) && c.balance == balance;
    RacingAt(w, Play(w, capacity, balance, moves), r0, r1, Paying(Offer(w, r0)), Paying(Offer(w, r1)), c);
    PayTick(w, SysOf(Play(w, capacity, balance, moves)), 0, r0, c);
    var c1 := c.(balance := balance - price);
    OfferStill(w, c, r1, balance - price);
    moves := RaceStep(w, capacity, balance, moves, r0, r1, Paying(Offer(w, r0)), Paying(Offer(w, r1)), c, 0, pay0, c1);
    RacingAt(w, Play(w, capacity, balance, moves), r0, r1, pay0, Paying(Offer(w, r1)), c1);
    PayTick(w, SysOf(Play(w, capacity, balance, moves)), 1, r1, c1);
    var c2 := c1.(balance := c1.balance - price);
    moves := RaceStep(w, capacity, balance, moves, r0, r1, pay0, Paying(Offer(w, r1)), c1, 1, pay1, c2);
    RacedTwice(w, capacity, balance, moves, r0, r1, pay0, pay1, c2);
  }

  lemma {:induction false} OfferStill(w: World, c: Core, r: Req, balance: nat)
    requires Drawn(w, r) && c == WithOffer(w, c, r)
    ensures var c' := c.(balance := balance); c' == WithOffer(w, c', r)
  {
  }

  lemma {:induction false} RacedTwice(w: World, capacity: nat, balance: nat, moves: seq<Move>, r0: Req, r1: Req,
                                      pc0: Pc, pc1: Pc, c: Core)
    requires pc0.Storing? && pc1.Storing? && r0.url == r1.url
    requires Racing(w, Play(w, capacity, balance, moves), r0, r1, pc0, pc1, c)
    ensures !PaidOnce(Play(w, capacity, balance, moves).engine.log)
  {
    var events := EventsOf(w, capacity, balance, moves);
    PlayIsRun(w, capacity, balance, moves);
    EngineLaws.RunInv(w.cfg, NewCache(capacity), events);
    var s := Play(w, capacity, balance, moves).engine;
    hide Play, RunEvents, EventsOf, EngineLaws.WellFounded, EngineLaws.Accounted, EngineLaws.StoreKnown;
    assert EngineLaws.TaskAt(w.cfg, s.log, 0, s.tasks[0]) && EngineLaws.TaskAt(w.cfg, s.log, 1, s.tasks[1]);
    var f0, f1 := Paid(0, r0.url, pc0.challenge, pc0.payment), Paid(1, r1.url, pc1.challenge, pc1.payment);
    assert f0 in s.log && f1 in s.log;
    var i :| 0 <= i < |s.log| && s.log[i] == f0;
    var j :| 0 <= j < |s.log| && s.log[j] == f1;
    assert i != j;
  }
}
