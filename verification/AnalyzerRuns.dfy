/** Properties of the analysis queue over every interleaving of submissions and analysis. */
module AnalyzerRuns {
  import opened Basics
  import opened AnalyzerModel

  // ---------- the queue ----------

  ghost predicate Ordered(queue: seq<Item>) {
    forall i, j | 0 <= i < j < |queue| :: Ahead(queue[i], queue[j])
  }

  ghost predicate OneEach(queue: seq<Item>) {
    forall i, j | 0 <= i < j < |queue| :: queue[i].ticket != queue[j].ticket
  }

  lemma {:induction false} PushMembers(queue: seq<Item>, x: Item)
    ensures forall y :: y in Push(queue, x) <==> y == x || y in queue
    ensures |Push(queue, x)| == |queue| + 1
  {
    if queue != [] {
      assert queue == [queue[0]] + queue[1..];
      PushMembers(queue[1..], x);
    }
  }

  lemma {:induction false} PushKeepsOrder(queue: seq<Item>, x: Item)
    requires Ordered(queue) && forall y | y in queue :: y.ticket != x.ticket
    ensures Ordered(Push(queue, x))
  {
    if queue != [] && !Ahead(x, queue[0]) {
      PushMembers(queue[1..], x);
      PushKeepsOrder(queue[1..], x);
      assert Ahead(queue[0], x);
      forall y | y in Push(queue[1..], x) ensures Ahead(queue[0], y) {
      }
    }
  }

  lemma {:induction false} PushKeepsOneEach(queue: seq<Item>, x: Item)
    requires OneEach(queue) && forall y | y in queue :: y.ticket != x.ticket
    ensures OneEach(Push(queue, x))
  {
    if queue != [] && !Ahead(x, queue[0]) {
      PushMembers(queue[1..], x);
      PushKeepsOneEach(queue[1..], x);
      forall y | y in Push(queue[1..], x) ensures queue[0].ticket != y.ticket {
      }
    }
  }

  /** What the scan in `_shed_lowest` finds: a lowest rank, and the earliest arrival of that rank. */
  lemma {:induction false} VictimIsShedFirst(queue: seq<Item>)
    requires queue != [] && Ordered(queue)
    ensures var v := queue[Victim(queue)];
            forall y | y in queue :: y == v || v.rank < y.rank || (v.rank == y.rank && v.ticket < y.ticket)
    ensures queue[Victim(queue)].rank == queue[|queue| - 1].rank
  {
    if |queue| > 1 {
      var v := Victim(queue[1..]);
      VictimIsShedFirst(queue[1..]);
      assert queue == [queue[0]] + queue[1..];
      assert queue[1..][v] in queue[1..];
      assert queue[|queue| - 1] == queue[1..][|queue| - 2];
    }
  }

  lemma WithoutKeepsOrder(queue: seq<Item>, v: nat)
    requires Ordered(queue) && OneEach(queue) && v < |queue|
    ensures Ordered(Without(queue, v)) && OneEach(Without(queue, v))
    ensures forall y :: y in Without(queue, v) <==> y in queue && y != queue[v]
    ensures |Without(queue, v)| == |queue| - 1
  {
    var rest := Without(queue, v);
    forall y | y in queue && y != queue[v] ensures y in rest {
      var i :| 0 <= i < |queue| && queue[i] == y;
      assert if i < v then rest[i] == y else rest[i - 1] == y;
    }
  }

  lemma {:induction false} BumpKeepsOrder(queue: seq<Item>, ticket: nat, count: nat)
    ensures |Bump(queue, ticket, count)| == |queue|
    ensures forall i | 0 <= i < |queue| ::
              Bump(queue, ticket, count)[i]
              == if queue[i].ticket == ticket then queue[i].(occurrences := count) else queue[i]
  {
    if queue != [] {
      BumpKeepsOrder(queue[1..], ticket, count);
    }
  }

  // ---------- the index ----------

  /** The queue and the index of pending signatures hold the same items, one per signature. */
  ghost predicate IndexedBy(queue: seq<Item>, pending: map<Signature, nat>, counter: nat) {
    && Ordered(queue) && OneEach(queue)
    && (forall x | x in queue :: x.ticket < counter && x.signature in pending && pending[x.signature] == x.ticket)
    && (forall k | k in pending :: exists x | x in queue :: x.signature == k)
  }

  ghost predicate Indexed(s: State) {
    IndexedBy(s.queue, s.pending, s.counter)
  }

  ghost predicate Bounded(c: Config, s: State) {
    |s.queue| <= c.capacity
  }

  /** Every admitted error is waiting, being analysed, analysed, failed or dropped. */
  ghost predicate Accounted(s: State) {
    s.counter == s.dropped + s.analyzed + s.failed + |s.queue| + if s.flight.Some? then 1 else 0
  }

  ghost predicate Sound(c: Config, s: State) {
    Indexed(s) && Bounded(c, s) && Accounted(s)
  }

  lemma SameTicketSameItem(queue: seq<Item>, x: Item, y: Item)
    requires OneEach(queue) && x in queue && y in queue && x.ticket == y.ticket
    ensures x == y
  {
    var i :| 0 <= i < |queue| && queue[i] == x;
    var j :| 0 <= j < |queue| && queue[j] == y;
    assert queue[i].ticket == queue[j].ticket;
  }

  lemma AddIsIndexed(queue: seq<Item>, pending: map<Signature, nat>, x: Item)
    requires IndexedBy(queue, pending, x.ticket) && x.signature !in pending
    ensures IndexedBy(Push(queue, x), pending[x.signature := x.ticket], x.ticket + 1)
    ensures |Push(queue, x)| == |queue| + 1
  {
    PushMembers(queue, x);
    PushKeepsOrder(queue, x);
    PushKeepsOneEach(queue, x);
    var pending' := pending[x.signature := x.ticket];
    forall k | k in pending' ensures exists y | y in Push(queue, x) :: y.signature == k {
      if k != x.signature {
        var y :| y in queue && y.signature == k;
        assert y in Push(queue, x);
      } else {
        assert x in Push(queue, x);
      }
    }
  }

  lemma RemoveIsIndexed(queue: seq<Item>, pending: map<Signature, nat>, counter: nat, v: nat)
    requires IndexedBy(queue, pending, counter) && v < |queue|
    ensures IndexedBy(Without(queue, v), Forget(pending, queue[v].signature), counter)
    ensures |Without(queue, v)| == |queue| - 1
  {
    WithoutKeepsOrder(queue, v);
    forall y | y in Without(queue, v) ensures y.signature != queue[v].signature {
      if y.signature == queue[v].signature {
        assert queue[v] in queue;
        SameTicketSameItem(queue, y, queue[v]);
      }
    }
    var pending' := Forget(pending, queue[v].signature);
    forall k | k in pending' ensures exists y | y in Without(queue, v) :: y.signature == k {
      var y :| y in queue && y.signature == k;
      assert y in Without(queue, v);
    }
  }

  lemma QueuedIsIndexed(c: Config, s: State, signature: Signature, rank: int, now: real)
    requires Sound(c, s) && FateOf(c, s, signature, rank, now) == Queued
    ensures Sound(c, Submit(c, s, signature, rank, now))
  {
    AddIsIndexed(s.queue, s.pending, Item(rank, s.counter, signature, |Recorded(c, s.seen, signature, now)|));
  }

  lemma DisplacedIsIndexed(c: Config, s: State, signature: Signature, rank: int, now: real)
    requires Sound(c, s) && FateOf(c, s, signature, rank, now) == Displaced
    ensures Sound(c, Submit(c, s, signature, rank, now))
  {
    var item := Item(rank, s.counter, signature, |Recorded(c, s.seen, signature, now)|);
    ExchangeIsIndexed(s.queue, s.pending, Victim(s.queue), item);
    assert Indexed(Submit(c, s, signature, rank, now));
  }

  lemma ExchangeIsIndexed(queue: seq<Item>, pending: map<Signature, nat>, v: nat, x: Item)
    requires IndexedBy(queue, pending, x.ticket) && v < |queue| && x.signature !in pending
    ensures IndexedBy(Push(Without(queue, v), x), Forget(pending, queue[v].signature)[x.signature := x.ticket], x.ticket + 1)
    ensures |Push(Without(queue, v), x)| == |queue|
  {
    RemoveIsIndexed(queue, pending, x.ticket, v);
    AddIsIndexed(Without(queue, v), Forget(pending, queue[v].signature), x);
  }

  /** The same items in the same places, up to their occurrence counts. */
  ghost predicate Alike(queue: seq<Item>, queue': seq<Item>) {
    |queue'| == |queue| &&
    forall i | 0 <= i < |queue| ::
      queue'[i].rank == queue[i].rank && queue'[i].ticket == queue[i].ticket
      && queue'[i].signature == queue[i].signature
  }

  lemma AlikeHolds(queue: seq<Item>, queue': seq<Item>, k: Signature)
    requires Alike(queue, queue') && exists x | x in queue :: x.signature == k
    ensures exists y | y in queue' :: y.signature == k
  {
    var x :| x in queue && x.signature == k;
    var i :| 0 <= i < |queue| && queue[i] == x;
    assert queue'[i] in queue' && queue'[i].signature == k;
  }

  lemma AlikeIsIndexed(s: State, s': State)
    requires Indexed(s) && Alike(s.queue, s'.queue) && s'.pending == s.pending && s'.counter == s.counter
    ensures Indexed(s')
  {
    forall y | y in s'.queue
      ensures y.ticket < s.counter && y.signature in s.pending && s.pending[y.signature] == y.ticket
    {
      var i :| 0 <= i < |s'.queue| && s'.queue[i] == y;
      assert s.queue[i] in s.queue;
    }
    forall k | k in s'.pending ensures exists y | y in s'.queue :: y.signature == k {
      AlikeHolds(s.queue, s'.queue, k);
    }
  }

  lemma BumpIsIndexed(c: Config, s: State, signature: Signature, rank: int, now: real)
    requires Sound(c, s) && signature in s.pending
    ensures Sound(c, Submit(c, s, signature, rank, now))
  {
    var count := |Recorded(c, s.seen, signature, now)|;
    BumpKeepsOrder(s.queue, s.pending[signature], count);
    AlikeIsIndexed(s, Submit(c, s, signature, rank, now));
  }

  lemma PopIsIndexed(c: Config, s: State)
    requires Sound(c, s)
    ensures Sound(c, Pop(s))
  {
    if s.queue != [] && s.flight.None? {
      RemoveIsIndexed(s.queue, s.pending, s.counter, 0);
      assert Without(s.queue, 0) == s.queue[1..];
    }
  }

  lemma StepIsSound(c: Config, s: State, e: Event)
    requires Sound(c, s)
    ensures Sound(c, Step(c, s, e))
  {
    match e
    case Submitted(now, signature, rank) =>
      match FateOf(c, s, signature, rank, now) {
        case Aggregated => BumpIsIndexed(c, s, signature, rank, now);
        case Served =>
        case Rejected =>
        case Queued => QueuedIsIndexed(c, s, signature, rank, now);
        case Displaced => DisplacedIsIndexed(c, s, signature, rank, now);
      }
    case Popped(_) => PopIsIndexed(c, s);
    case Finished(_, _) =>
  }

  /**
    In every reachable state, with submissions arriving at any moment: one
    queued item per signature, each indexed; never more than the capacity; and
    every admitted error accounted for exactly once.
   */
  lemma {:induction false} QueueIsSound(c: Config, es: seq<Event>)
    ensures Sound(c, Run(c, START, es))
  {
    if es != [] {
      QueueIsSound(c, es[..|es| - 1]);
      StepIsSound(c, Run(c, START, es[..|es| - 1]), es[|es| - 1]);
    }
  }

  /** Items leave for analysis in order of urgency, then arrival. */
  lemma PopTakesTheMostUrgent(c: Config, es: seq<Event>)
    ensures var s := Run(c, START, es);
            s.queue != [] && s.flight.None? ==>
              var first := s.queue[0];
              && Pop(s).flight == Some(first) && Pop(s).queue == s.queue[1..]
              && forall x | x in Pop(s).queue :: first.rank > x.rank || (first.rank == x.rank && first.ticket < x.ticket)
  {
    QueueIsSound(c, es);
  }

  /** Of the waiting errors the one shed is the least urgent and, among those, the longest waiting. */
  predicate ShedFor(queue: seq<Item>, queue': seq<Item>, v: Item) {
    v in queue && v !in queue' &&
    forall y | y in queue && y != v :: y in queue' && (v.rank < y.rank || (v.rank == y.rank && v.ticket < y.ticket))
  }

  /**
    A new error finds a full queue: it is taken in exactly when some waiting error is less urgent, which then
    makes room for it; an error no more urgent than all that wait is turned away.
   */
  lemma FullQueueTakesExactlyWhen(c: Config, s: State, e: Event)
    requires Sound(c, s) && e.Submitted? && |s.queue| == c.capacity && !Usable(s.cache, e.signature, e.now)
    requires forall x | x in s.queue :: x.signature != e.signature
    ensures var s', lessUrgent := Step(c, s, e), exists y | y in s.queue :: y.rank < e.rank;
            && s'.dropped == s.dropped + 1
            && (lessUrgent <==> exists x | x in s'.queue :: x.signature == e.signature)
            && (lessUrgent ==> exists v :: ShedFor(s.queue, s'.queue, v))
            && (!lessUrgent ==> s'.queue == s.queue)
  {
    var item := Item(e.rank, s.counter, e.signature, |Recorded(c, s.seen, e.signature, e.now)|);
    var shed := s.queue[Victim(s.queue)];
    VictimIsShedFirst(s.queue);
    assert shed in s.queue;
    if shed.rank < e.rank {
      assert FateOf(c, s, e.signature, e.rank, e.now) == Displaced;
      ExchangeSheds(s.queue, item);
      assert item in Step(c, s, e).queue;
      assert ShedFor(s.queue, Step(c, s, e).queue, shed);
    }
  }

  lemma ExchangeSheds(queue: seq<Item>, x: Item)
    requires queue != [] && Ordered(queue) && OneEach(queue) && forall y | y in queue :: y.ticket < x.ticket
    ensures var queue' := Push(Without(queue, Victim(queue)), x);
            x in queue' && ShedFor(queue, queue', queue[Victim(queue)])
  {
    VictimIsShedFirst(queue);
    WithoutKeepsOrder(queue, Victim(queue));
    PushMembers(Without(queue, Victim(queue)), x);
  }

  // ---------- what survives ----------

  function Ranks(queue: seq<Item>): seq<int> {
    seq(|queue|, i requires 0 <= i < |queue| => queue[i].rank)
  }

  /** Insertion into a descending list. */
  function Insert(ranks: seq<int>, r: int): seq<int> {
    if ranks == [] then [r]
    else if r > ranks[0] then [r] + ranks
    else [ranks[0]] + Insert(ranks[1..], r)
  }

  function InsertAll(ranks: seq<int>, more: seq<int>): seq<int> {
    if more == [] then ranks else Insert(InsertAll(ranks, more[..|more| - 1]), more[|more| - 1])
  }

  /** The first `k` of a descending list, or all of it. */
  function Largest(k: nat, descending: seq<int>): seq<int> {
    if k == 0 || descending == [] then [] else [descending[0]] + Largest(k - 1, descending[1..])
  }

  lemma {:induction false} LargestIsPrefix(k: nat, descending: seq<int>)
    ensures |descending| <= k ==> Largest(k, descending) == descending
    ensures k <= |descending| ==> Largest(k, descending) == descending[..k]
  {
    if k > 0 && descending != [] {
      LargestIsPrefix(k - 1, descending[1..]);
    }
  }

  ghost predicate Descending(ranks: seq<int>) {
    forall i, j | 0 <= i < j < |ranks| :: ranks[i] >= ranks[j]
  }

  lemma {:induction false} InsertCounts(ranks: seq<int>, r: int)
    ensures multiset(Insert(ranks, r)) == multiset(ranks) + multiset{r}
    ensures |Insert(ranks, r)| == |ranks| + 1
  {
    if ranks != [] {
      assert ranks == [ranks[0]] + ranks[1..];
      InsertCounts(ranks[1..], r);
    }
  }

  lemma {:induction false} InsertHolds(ranks: seq<int>, r: int)
    ensures forall x :: x in Insert(ranks, r) <==> x == r || x in ranks
  {
    if ranks != [] {
      assert ranks == [ranks[0]] + ranks[1..];
      InsertHolds(ranks[1..], r);
    }
  }

  lemma TopKeepsDescending(top: int, ranks: seq<int>)
    requires Descending(ranks) && forall x | x in ranks :: x <= top
    ensures Descending([top] + ranks)
  {
    var all := [top] + ranks;
    forall i, j | 0 <= i < j < |all| ensures all[i] >= all[j] {
      assert all[j] == ranks[j - 1] && ranks[j - 1] in ranks;
      if i > 0 {
        assert all[i] == ranks[i - 1];
      }
    }
  }

  lemma {:induction false} InsertSorts(ranks: seq<int>, r: int)
    requires Descending(ranks)
    ensures Descending(Insert(ranks, r))
  {
    if ranks != [] && r <= ranks[0] {
      InsertSorts(ranks[1..], r);
      InsertHolds(ranks[1..], r);
      assert forall x | x in Insert(ranks[1..], r) :: x <= ranks[0];
      TopKeepsDescending(ranks[0], Insert(ranks[1..], r));
    }
  }

  /** `InsertAll` is sorting: a descending arrangement of exactly the same ranks. */
  lemma {:induction false} InsertAllSorts(ranks: seq<int>, more: seq<int>)
    requires Descending(ranks)
    ensures Descending(InsertAll(ranks, more))
    ensures multiset(InsertAll(ranks, more)) == multiset(ranks) + multiset(more)
    ensures |InsertAll(ranks, more)| == |ranks| + |more|
  {
    if more != [] {
      InsertAllSorts(ranks, more[..|more| - 1]);
      InsertSorts(InsertAll(ranks, more[..|more| - 1]), more[|more| - 1]);
      InsertCounts(InsertAll(ranks, more[..|more| - 1]), more[|more| - 1]);
      assert more == more[..|more| - 1] + [more[|more| - 1]];
    }
  }

  lemma {:induction false} PushInsertsRank(queue: seq<Item>, x: Item)
    requires forall y | y in queue :: y.ticket < x.ticket
    ensures Ranks(Push(queue, x)) == Insert(Ranks(queue), x.rank)
  {
    if queue != [] {
      assert Ranks(queue)[1..] == Ranks(queue[1..]);
      if Ahead(x, queue[0]) {
        assert Ranks([x] + queue) == [x.rank] + Ranks(queue);
      } else {
        PushInsertsRank(queue[1..], x);
        assert Ranks(Push(queue, x)) == [queue[0].rank] + Ranks(Push(queue[1..], x));
      }
    }
  }

  lemma {:induction false} LargestOfLargest(k: nat, ranks: seq<int>)
    ensures Largest(k, Largest(k + 1, ranks)) == Largest(k, ranks)
  {
    if k > 0 && ranks != [] {
      LargestOfLargest(k - 1, ranks[1..]);
    }
  }

  /** Taking the k largest early loses nothing. */
  lemma {:induction false} LargestIsOnline(k: nat, ranks: seq<int>, r: int)
    ensures Largest(k, Insert(Largest(k, ranks), r)) == Largest(k, Insert(ranks, r))
  {
    if k > 0 && ranks != [] {
      if r > ranks[0] {
        LargestOfLargest(k - 1, ranks);
      } else {
        LargestIsOnline(k - 1, ranks[1..], r);
      }
    }
  }

  /** A full descending list keeps what it has against a rank no larger than its least. */
  lemma {:induction false} FullRefuses(ranks: seq<int>, r: int)
    requires ranks != [] && Descending(ranks) && r <= ranks[|ranks| - 1]
    ensures Largest(|ranks|, Insert(ranks, r)) == ranks
  {
    if |ranks| > 1 {
      FullRefuses(ranks[1..], r);
    }
  }

  /** A full descending list gives up its least for a larger rank. */
  lemma {:induction false} FullExchanges(ranks: seq<int>, r: int)
    requires ranks != [] && Descending(ranks) && r > ranks[|ranks| - 1]
    ensures Largest(|ranks|, Insert(ranks, r)) == Insert(ranks[..|ranks| - 1], r)
  {
    var kept := ranks[..|ranks| - 1];
    if r > ranks[0] {
      LargestIsPrefix(|ranks| - 1, ranks);
    } else {
      FullExchanges(ranks[1..], r);
      assert kept[0] == ranks[0] && kept[1..] == ranks[1..][..|ranks| - 2];
    }
  }

  predicate Admitting(fate: Fate) {
    !fate.Aggregated? && !fate.Served?
  }

  /** Ranks of the errors a step admits: neither aggregated nor served from the cache. */
  function Admits(c: Config, s: State, e: Event): seq<int> {
    if e.Submitted? && Admitting(FateOf(c, s, e.signature, e.rank, e.now)) then [e.rank] else []
  }

  function Admitted(c: Config, s: State, es: seq<Event>): seq<int> {
    if es == [] then []
    else Admitted(c, s, es[..|es| - 1]) + Admits(c, Run(c, s, es[..|es| - 1]), es[|es| - 1])
  }

  predicate SubmitsOnly(es: seq<Event>) {
    forall i | 0 <= i < |es| :: es[i].Submitted?
  }

  lemma RanksDescend(queue: seq<Item>)
    requires Ordered(queue)
    ensures Descending(Ranks(queue))
  {
  }

  lemma VictimRanks(queue: seq<Item>)
    requires queue != [] && Ordered(queue)
    ensures forall i | Victim(queue) <= i < |queue| :: queue[i].rank == queue[|queue| - 1].rank
  {
    VictimIsShedFirst(queue);
    forall i | Victim(queue) <= i < |queue| ensures queue[i].rank == queue[|queue| - 1].rank {
      if Victim(queue) < i < |queue| - 1 {
        assert Ahead(queue[Victim(queue)], queue[i]) && Ahead(queue[i], queue[|queue| - 1]);
      }
    }
  }

  /** Removing the victim leaves the ranks without the last: the items after it all have its rank. */
  lemma WithoutVictimRanks(queue: seq<Item>)
    requires queue != [] && Ordered(queue)
    ensures |Ranks(queue)| == |queue|
    ensures Ranks(Without(queue, Victim(queue))) == Ranks(queue)[..|queue| - 1]
  {
    VictimRanks(queue);
    RanksWithout(queue, Victim(queue));
  }

  lemma RanksWithout(queue: seq<Item>, v: nat)
    requires v < |queue| && forall i | v <= i < |queue| :: queue[i].rank == queue[|queue| - 1].rank
    ensures Ranks(Without(queue, v)) == Ranks(queue)[..|queue| - 1]
  {
  }

  /** A rank offered to the queue: kept or not, the largest remain. */
  ghost predicate KeepsLargest(c: Config, s: State, s': State, offered: seq<int>) {
    && Ranks(s'.queue) == Largest(c.capacity, InsertAll(Ranks(s.queue), offered))
    && s'.dropped == s.dropped + |s.queue| + |offered| - |s'.queue|
  }

  lemma InsertOne(ranks: seq<int>, r: int)
    ensures InsertAll(ranks, [r]) == Insert(ranks, r) && InsertAll(ranks, []) == ranks
  {
    assert [r][..0] == [];
  }

  lemma AggregatedKeepsLargest(c: Config, s: State, e: Event)
    requires Sound(c, s) && e.Submitted? && e.signature in s.pending
    ensures KeepsLargest(c, s, Step(c, s, e), [])
  {
    BumpKeepsOrder(s.queue, s.pending[e.signature], |Recorded(c, s.seen, e.signature, e.now)|);
    LargestIsPrefix(c.capacity, Ranks(s.queue));
    assert Ranks(Step(c, s, e).queue) == Ranks(s.queue);
  }

  /** The victim has the least rank there is. */
  lemma VictimIsLeast(queue: seq<Item>)
    requires queue != [] && Ordered(queue)
    ensures var ranks := Ranks(queue);
            |ranks| == |queue| && Descending(ranks) && ranks[|ranks| - 1] == queue[Victim(queue)].rank
  {
    RanksDescend(queue);
    VictimIsShedFirst(queue);
  }

  /** A full queue that refuses a rank no larger than its least. */
  lemma RefusedRank(queue: seq<Item>, ranks: seq<int>, k: nat, rank: int)
    requires queue != [] && Ordered(queue) && queue[Victim(queue)].rank >= rank && ranks == Ranks(queue) && k == |queue|
    ensures ranks == Largest(k, InsertAll(ranks, [rank]))
  {
    VictimIsLeast(queue);
    RefusedAmongRanks(k, ranks, ranks, rank);
  }

  lemma RefusedAmongRanks(k: nat, ranks: seq<int>, kept: seq<int>, r: int)
    requires ranks != [] && k == |ranks| && Descending(ranks) && r <= ranks[|ranks| - 1] && kept == ranks
    ensures kept == Largest(k, InsertAll(ranks, [r]))
  {
    FullRefuses(ranks, r);
    InsertOne(ranks, r);
  }

  /** A full queue that gives up its victim for a larger rank. */
  lemma ExchangedRank(queue: seq<Item>, x: Item)
    requires queue != [] && Ordered(queue) && OneEach(queue) && queue[Victim(queue)].rank < x.rank
    requires forall y | y in queue :: y.ticket < x.ticket
    ensures Ranks(Push(Without(queue, Victim(queue)), x)) == Largest(|queue|, InsertAll(Ranks(queue), [x.rank]))
  {
    VictimIsLeast(queue);
    WithoutVictimRanks(queue);
    PushedInPlace(queue, x);
    var ranks, kept := Ranks(queue), Ranks(Without(queue, Victim(queue)));
    ExchangedAmongRanks(|queue|, ranks, kept, x.rank);
  }

  lemma ExchangedAmongRanks(k: nat, ranks: seq<int>, kept: seq<int>, r: int)
    requires ranks != [] && k == |ranks| && Descending(ranks) && r > ranks[|ranks| - 1] && kept == ranks[..k - 1]
    ensures Insert(kept, r) == Largest(k, InsertAll(ranks, [r]))
  {
    FullExchanges(ranks, r);
    InsertOne(ranks, r);
  }

  lemma PushedInPlace(queue: seq<Item>, x: Item)
    requires queue != [] && Ordered(queue) && OneEach(queue)
    requires forall y | y in queue :: y.ticket < x.ticket
    ensures Ranks(Push(Without(queue, Victim(queue)), x)) == Insert(Ranks(Without(queue, Victim(queue))), x.rank)
  {
    WithoutKeepsOrder(queue, Victim(queue));
    PushInsertsRank(Without(queue, Victim(queue)), x);
  }

  lemma RejectedKeepsLargest(c: Config, s: State, e: Event)
    requires Ordered(s.queue) && Bounded(c, s)
    requires e.Submitted? && FateOf(c, s, e.signature, e.rank, e.now) == Rejected
    ensures KeepsLargest(c, s, Step(c, s, e), [e.rank])
  {
    RefusedRank(s.queue, Ranks(s.queue), c.capacity, e.rank);
  }

  /** A queue with room. */
  lemma AddedRank(queue: seq<Item>, x: Item, k: nat)
    requires |queue| < k && forall y | y in queue :: y.ticket < x.ticket
    ensures Ranks(Push(queue, x)) == Largest(k, InsertAll(Ranks(queue), [x.rank]))
    ensures |Push(queue, x)| == |queue| + 1
  {
    PushInsertsRank(queue, x);
    PushMembers(queue, x);
    InsertCounts(Ranks(queue), x.rank);
    InsertOne(Ranks(queue), x.rank);
    LargestIsPrefix(k, Insert(Ranks(queue), x.rank));
  }

  lemma QueuedKeepsLargest(c: Config, s: State, e: Event)
    requires Ordered(s.queue) && OneEach(s.queue) && Bounded(c, s)
    requires forall x | x in s.queue :: x.ticket < s.counter
    requires e.Submitted? && FateOf(c, s, e.signature, e.rank, e.now) == Queued
    ensures KeepsLargest(c, s, Step(c, s, e), [e.rank])
  {
    AddedRank(s.queue, Item(e.rank, s.counter, e.signature, |Recorded(c, s.seen, e.signature, e.now)|), c.capacity);
  }

  lemma DisplacedKeepsLargest(c: Config, s: State, e: Event)
    requires Ordered(s.queue) && OneEach(s.queue) && Bounded(c, s)
    requires forall x | x in s.queue :: x.ticket < s.counter
    requires e.Submitted? && FateOf(c, s, e.signature, e.rank, e.now) == Displaced
    ensures KeepsLargest(c, s, Step(c, s, e), [e.rank])
  {
    var item := Item(e.rank, s.counter, e.signature, |Recorded(c, s.seen, e.signature, e.now)|);
    ExchangedRank(s.queue, item);
    PushMembers(Without(s.queue, Victim(s.queue)), item);
  }

  /** One submission keeps the largest ranks, and counts the one it drops. */
  lemma SubmitKeepsLargest(c: Config, s: State, e: Event)
    requires Sound(c, s) && e.Submitted?
    ensures KeepsLargest(c, s, Step(c, s, e), Admits(c, s, e))
  {
    match FateOf(c, s, e.signature, e.rank, e.now)
    case Aggregated => AggregatedKeepsLargest(c, s, e);
    case Served =>
        LargestIsPrefix(c.capacity, Ranks(s.queue));
    case Rejected => RejectedKeepsLargest(c, s, e);
    case Queued => QueuedKeepsLargest(c, s, e);
    case Displaced => DisplacedKeepsLargest(c, s, e);
  }

  lemma {:induction false} RunIsSound(c: Config, s: State, es: seq<Event>)
    requires Sound(c, s)
    ensures Sound(c, Run(c, s, es))
  {
    if es != [] {
      RunIsSound(c, s, es[..|es| - 1]);
      StepIsSound(c, Run(c, s, es[..|es| - 1]), es[|es| - 1]);
    }
  }

  lemma LargestOfMore(k: nat, ranks: seq<int>, more: seq<int>, r: seq<int>)
    requires Descending(ranks) && |r| <= 1
    ensures Largest(k, InsertAll(Largest(k, InsertAll(ranks, more)), r)) == Largest(k, InsertAll(ranks, more + r))
  {
    var all := InsertAll(ranks, more);
    InsertAllSorts(ranks, more);
    if r == [] {
      assert more + r == more;
      LargestIsPrefix(k, all);
      LargestIsPrefix(k, Largest(k, all));
    } else {
      assert r == [r[0]] && (more + r)[..|more|] == more;
      InsertOne(Largest(k, all), r[0]);
      LargestIsOnline(k, all, r[0]);
    }
  }

  /**
    Between two analyses the queue is a streaming top-k: whatever order errors
    arrive in, the ranks left are the `capacity` largest of those that were
    waiting and all that were admitted since, and the rest are counted dropped.
   */
  lemma {:induction false} ShedsAllButTheLargest(c: Config, s: State, es: seq<Event>)
    requires Sound(c, s) && SubmitsOnly(es)
    ensures KeepsLargest(c, s, Run(c, s, es), Admitted(c, s, es))
  {
    RanksDescend(s.queue);
    LargestIsPrefix(c.capacity, Ranks(s.queue));
    if es != [] {
      var front, e := es[..|es| - 1], es[|es| - 1];
      ShedsAllButTheLargest(c, s, front);
      RunIsSound(c, s, front);
      SubmitKeepsLargest(c, Run(c, s, front), e);
      LargestOfMore(c.capacity, Ranks(s.queue), Admitted(c, s, front), Admits(c, Run(c, s, front), e));
    }
  }
}
