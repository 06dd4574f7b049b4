/** The analysis queue as values: urgency order, aggregation, shedding and the result cache. */
module AnalyzerModel {
  import opened Basics

  /** What identifies an error: its workload, the pattern it matched, and its line with digits normalised out. */
  datatype Signature = Signature(workload: string, pattern: string, line: string)

  type Findings = string

  /** A queued error; `ticket` is its place in the order of arrival. */
  datatype Item = Item(rank: int, ticket: nat, signature: Signature, occurrences: nat)

  datatype Cached = Cached(expiry: real, findings: Findings)

  /** A result handed on; `occurrences` is how many new occurrences it stands for. */
  datatype Emission = Emission(signature: Signature, occurrences: nat, fromCache: bool, findings: Findings)

  datatype Settings = Settings(capacity: nat, cacheTtl: real, window: real)

  /** Configuration loading refuses a queue size below one. */
  type Config = c: Settings | c.capacity >= 1 witness Settings(1, 0.0, 0.0)

  /** `queue` in the order the heap yields it; `flight` is the item being analysed. */
  datatype State = State(
    queue: seq<Item>,
    pending: map<Signature, nat>,
    counter: nat,
    seen: map<Signature, seq<real>>,
    cache: map<Signature, Cached>,
    flight: Option<Item>,
    dropped: nat,
    analyzed: nat,
    failed: nat,
    emitted: seq<Emission>)

  const START := State([], map[], 0, map[], map[], None, 0, 0, 0, [])

  /** The heap's order: more urgent first, then first come. */
  predicate Ahead(a: Item, b: Item) {
    a.rank > b.rank || (a.rank == b.rank && a.ticket < b.ticket)
  }

  function Push(queue: seq<Item>, x: Item): seq<Item> {
    if queue == [] then [x]
    else if Ahead(x, queue[0]) then [x] + queue
    else [queue[0]] + Push(queue[1..], x)
  }

  /** Shed before everything else: the lowest rank, and within it the longest waiting. */
  predicate ShedBefore(a: Item, b: Item) {
    a.rank < b.rank || (a.rank == b.rank && a.ticket < b.ticket)
  }

  /** Index of the item that `max` picks in `_shed_lowest`. */
  function Victim(queue: seq<Item>): (v: nat)
    requires queue != []
    ensures v < |queue|
  {
    if |queue| == 1 then 0
    else
      var v := Victim(queue[1..]);
      if ShedBefore(queue[1..][v], queue[0]) then v + 1 else 0
  }

  function Without<T>(s: seq<T>, i: nat): seq<T>
    requires i < |s|
  {
    s[..i] + s[i + 1..]
  }

  // ---------- recurrence and cache ----------

  function Recent(times: seq<real>, now: real, window: real): seq<real> {
    if times == [] then []
    else if now - times[0] <= window then [times[0]] + Recent(times[1..], now, window)
    else Recent(times[1..], now, window)
  }

  function Seen(seen: map<Signature, seq<real>>, signature: Signature): seq<real> {
    if signature in seen then seen[signature] else []
  }

  function Recorded(c: Config, seen: map<Signature, seq<real>>, signature: Signature, now: real): seq<real> {
    Recent(Seen(seen, signature), now, c.window) + [now]
  }

  predicate Usable(cache: map<Signature, Cached>, signature: Signature, now: real) {
    signature in cache && now <= cache[signature].expiry
  }

  // ---------- submission ----------

  /** What `submit` does with an error. */
  datatype Fate = Aggregated | Served | Rejected | Displaced | Queued

  function FateOf(c: Config, s: State, signature: Signature, rank: int, now: real): Fate {
    if signature in s.pending then Aggregated
    else if Usable(s.cache, signature, now) then Served
    else if |s.queue| < c.capacity then Queued
    else if s.queue[Victim(s.queue)].rank >= rank then Rejected
    else Displaced
  }

  function Bump(queue: seq<Item>, ticket: nat, count: nat): seq<Item> {
    if queue == [] then []
    else if queue[0].ticket == ticket then [queue[0].(occurrences := count)] + Bump(queue[1..], ticket, count)
    else [queue[0]] + Bump(queue[1..], ticket, count)
  }

  function Forget<T>(m: map<Signature, T>, signature: Signature): map<Signature, T> {
    m - {signature}
  }

  /** The state a fate leads to. */
  function Settle(c: Config, s: State, signature: Signature, rank: int, now: real, fate: Fate): State
    requires fate.Aggregated? ==> signature in s.pending
    requires fate.Served? ==> signature in s.cache
    requires fate.Displaced? ==> s.queue != []
  {
    var times := Recorded(c, s.seen, signature, now);
    var noted := s.(seen := s.seen[signature := times]);
    var item := Item(rank, s.counter, signature, |times|);
    var missed := noted.(cache := Forget(s.cache, signature), counter := s.counter + 1);
    match fate
    case Aggregated => noted.(queue := Bump(s.queue, s.pending[signature], |times|))
    case Served => noted.(emitted := s.emitted + [Emission(signature, 1, true, s.cache[signature].findings)])
    case Rejected => missed.(dropped := s.dropped + 1)
    case Queued => missed.(queue := Push(s.queue, item), pending := s.pending[signature := s.counter])
    case Displaced =>
      var v := Victim(s.queue);
      missed.(queue := Push(Without(s.queue, v), item),
              pending := Forget(s.pending, s.queue[v].signature)[signature := s.counter],
              dropped := s.dropped + 1)
  }

  function Submit(c: Config, s: State, signature: Signature, rank: int, now: real): State {
    Settle(c, s, signature, rank, now, FateOf(c, s, signature, rank, now))
  }

  // ---------- analysis ----------

  /** The first half of `process_next`: take the most urgent item. */
  function Pop(s: State): State {
    if s.queue == [] || s.flight.Some? then s
    else s.(queue := s.queue[1..], pending := Forget(s.pending, s.queue[0].signature), flight := Some(s.queue[0]))
  }

  /** The second half: the model answered, or the analysis failed. */
  function Finish(c: Config, s: State, reply: Option<Findings>, now: real): State {
    match s.flight
    case None => s
    case Some(item) =>
      match reply
      case None => s.(flight := None, failed := s.failed + 1)
      case Some(findings) =>
        s.(flight := None, analyzed := s.analyzed + 1,
           cache := s.cache[item.signature := Cached(now + c.cacheTtl, findings)],
           emitted := s.emitted + [Emission(item.signature, item.occurrences, false, findings)])
  }

  // ---------- runs ----------

  /** One worker thread; submissions come between any of its steps. */
  datatype Event =
    | Submitted(now: real, signature: Signature, rank: int)
    | Popped(now: real)
    | Finished(now: real, reply: Option<Findings>)

  function Step(c: Config, s: State, e: Event): State {
    match e
    case Submitted(now, signature, rank) => Submit(c, s, signature, rank, now)
    case Popped(_) => Pop(s)
    case Finished(now, reply) => Finish(c, s, reply, now)
  }

  function Run(c: Config, s: State, es: seq<Event>): State {
    if es == [] then s else Step(c, Run(c, s, es[..|es| - 1]), es[|es| - 1])
  }
}
