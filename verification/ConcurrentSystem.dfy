/** Engine, mock server and mock backend under any number of concurrent requests. An answer is
    computed at one moment and delivered at another, and anything may happen in between. */
module ConcurrentSystem {
  import opened TokenStore
  import opened Engine
  import opened MockServer
  import opened ClosedSystem
  import MockChallenge

  /** `inflight` holds the answers on their way to the requests that await them. */
  datatype Net = Net(engine: State, registry: Registry, balance: nat, inflight: map<nat, Reply>)

  datatype Move =
    | Arrive(id: nat, url: string)
    | Work(id: nat, now: nat, preimage: string)
    | Deliver(id: nat)

  /** The server, the backend, the clock or the store answers request `id`; `preimage` is the random
      draw of a challenge, should one be issued. */
  function Worked(w: World, s: Net, id: nat, now: nat, preimage: string): Net
    requires id in s.engine.tasks && w.crypto.hash(preimage).Some?
  {
    var sys := Sys(s.engine, s.registry, s.balance);
    var (reply, after) := Answer(w, sys, id, Req("", now, preimage, preimage, preimage));
    Net(s.engine, after.registry, after.balance, s.inflight[id := reply])
  }

  predicate Awaits(s: Net, id: nat) {
    id in s.engine.tasks && !s.engine.tasks[id].pc.Done? && id !in s.inflight
  }

  function Moved(w: World, s: Net, m: Move): Net {
    match m
    case Arrive(id, url) => s.(engine := Apply(w.cfg, s.engine, Spawn(id, url, w.host(url))))
    case Work(id, now, preimage) =>
      if Awaits(s, id) && w.crypto.hash(preimage).Some? then Worked(w, s, id, now, preimage) else s
    case Deliver(id) =>
      if id !in s.inflight then s
      else s.(engine := Apply(w.cfg, s.engine, Step(id, s.inflight[id])), inflight := s.inflight - {id})
  }

  function Opened(capacity: nat, balance: nat): Net {
    Net(Initial(NewCache(capacity)), map[], balance, map[])
  }

  function Play(w: World, capacity: nat, balance: nat, moves: seq<Move>): Net {
    if |moves| == 0 then Opened(capacity, balance)
    else Moved(w, Play(w, capacity, balance, moves[..|moves| - 1]), moves[|moves| - 1])
  }

  /** A challenge issued by this move has a new invoice. */
  predicate FreshMove(w: World, s: Net, m: Move) {
    m.Work? && Awaits(s, m.id) && w.crypto.hash(m.preimage).Some? && s.engine.tasks[m.id].pc.PlainTry? ==>
      MockChallenge.Generate(w.crypto, m.preimage, PriceOf(w, s.engine.tasks[m.id].url)).invoice !in s.registry
  }

  ghost predicate FreshPlay(w: World, capacity: nat, balance: nat, moves: seq<Move>) {
    |moves| == 0
    || (var before := moves[..|moves| - 1];
        && FreshPlay(w, capacity, balance, before)
        && FreshMove(w, Play(w, capacity, balance, before), moves[|moves| - 1]))
  }

  /** The engine's part of a play. */
  ghost function EventsOf(w: World, capacity: nat, balance: nat, moves: seq<Move>): seq<Event> {
    if |moves| == 0 then []
    else
      var before, s := moves[..|moves| - 1], Play(w, capacity, balance, moves[..|moves| - 1]);
      EventsOf(w, capacity, balance, before)
      + match moves[|moves| - 1]
        case Arrive(id, url) => [Spawn(id, url, w.host(url))]
        case Work(_, _, _) => []
        case Deliver(id) => if id in s.inflight then [Step(id, s.inflight[id])] else []
  }
}
