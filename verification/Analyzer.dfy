/** The analysis queue as objects: queued items are shared between the heap and the signature index. */
module Analyzer {
  import opened Basics
  import opened AnalyzerModel
  import opened AnalyzerRuns

  class QueueItem {
    const rank: int
    const ticket: nat
    const signature: Signature
    var occurrences: nat

    ghost function Value(): Item
      reads this
    {
      Item(rank, ticket, signature, occurrences)
    }

    constructor (rank: int, ticket: nat, signature: Signature, occurrences: nat)
      ensures Value() == Item(rank, ticket, signature, occurrences)
    {
      this.rank, this.ticket, this.signature, this.occurrences := rank, ticket, signature, occurrences;
    }
  }

  /** `_heap` in the order it is popped, and `_pending_signatures`. */
  class Backlog {
    var heap: seq<QueueItem>
    var pending: map<Signature, QueueItem>
    ghost var items: seq<Item>
    ghost var tickets: map<Signature, nat>
    ghost var Repr: set<object>

    ghost predicate Valid()
      reads this, Repr
    {
      Mirrored() && Indexed()
    }

    /** The heap holds `items`. */
    ghost predicate Mirrored()
      reads this, Repr
    {
      && this in Repr && OneEach(items)
      && |heap| == |items|
      && (forall i | 0 <= i < |heap| ::
            && heap[i] in Repr && heap[i].rank == items[i].rank && heap[i].ticket == items[i].ticket
            && heap[i].signature == items[i].signature && heap[i].occurrences == items[i].occurrences)
    }

    /** The index leads to items in the heap. */
    ghost predicate Indexed()
      reads this
    {
      && pending.Keys == tickets.Keys
      && (forall k | k in pending :: pending[k] in heap && pending[k].signature == k && pending[k].ticket == tickets[k])
    }

    constructor ()
      ensures Valid() && fresh(Repr) && items == [] && tickets == map[]
    {
      heap, pending, items, tickets := [], map[], [], map[];
      Repr := {this};
    }

    /** A queued error recurs: the shared item takes the new count. */
    method Aggregate(signature: Signature, count: nat)
      requires Valid() && signature in tickets
      modifies Repr
      ensures Valid() && Repr == old(Repr) && tickets == old(tickets)
      ensures items == Bump(old(items), tickets[signature], count)
      ensures |items| == |old(items)| && forall i | 0 <= i < |items| :: items[i].ticket == old(items)[i].ticket
    {
      var item := pending[signature];
      ghost var j :| 0 <= j < |heap| && heap[j] == item;
      Recount(item, j, count);
    }

    method Recount(item: QueueItem, ghost j: nat, count: nat)
      requires Mirrored() && j < |heap| && heap[j] == item
      modifies item`occurrences, this`items
      ensures Mirrored() && items == Bump(old(items), item.ticket, count)
      ensures |items| == |old(items)| && forall i | 0 <= i < |items| :: items[i].ticket == old(items)[i].ticket
    {
      BumpedAt(items, j, count);
      item.occurrences := count;
      items := Bump(items, item.ticket, count);
    }

    /** The scan of `max` in `_shed_lowest`. */
    method Lowest() returns (v: nat)
      requires Valid() && heap != []
      ensures v < |items| && v == Victim(items)
    {
      v := 0;
      var i := 1;
      while i < |heap|
        invariant 1 <= i <= |heap| && v < i
        invariant forall j | 0 <= j < i && j != v :: ShedBefore(items[v], items[j])
      {
        if heap[i].rank < heap[v].rank || (heap[i].rank == heap[v].rank && heap[i].ticket < heap[v].ticket) {
          v := i;
        }
        i := i + 1;
      }
      OnlyVictim(items, v);
    }

    method Remove(v: nat)
      requires Valid() && v < |items|
      modifies this
      ensures Valid() && Repr == old(Repr)
      ensures items == Without(old(items), v) && tickets == Forget(old(tickets), old(items)[v].signature)
    {
      var item := heap[v];
      forall k | k in pending && k != item.signature ensures pending[k] in Without(heap, v) {
        InWithout(heap, v, pending[k]);
      }
      heap := heap[..v] + heap[v + 1..];
      pending := pending - {item.signature};
      items := Without(items, v);
      tickets := Forget(tickets, item.signature);
    }

    /** `heappush`, and the new item's entry in the index. */
    method Add(rank: int, ticket: nat, signature: Signature, occurrences: nat)
      requires Valid() && forall i | 0 <= i < |items| :: items[i].ticket < ticket
      modifies this
      ensures Valid() && fresh(Repr - old(Repr))
      ensures items == Push(old(items), Item(rank, ticket, signature, occurrences))
      ensures tickets == old(tickets)[signature := ticket]
      ensures forall i | 0 <= i < |items| :: items[i].ticket <= ticket
    {
      var item := new QueueItem(rank, ticket, signature, occurrences);
      var i := PlaceFor(rank, ticket);
      Insert(item, i);
    }

    /** Where the heap would yield a new item. */
    method PlaceFor(rank: int, ticket: nat) returns (i: nat)
      requires Valid()
      ensures i <= |items| && PlacedAt(items, rank, ticket, i)
    {
      i := 0;
      while i < |heap| && !(rank > heap[i].rank || (rank == heap[i].rank && ticket < heap[i].ticket))
        invariant 0 <= i <= |heap|
        invariant forall j | 0 <= j < i :: !Precedes(rank, ticket, items[j])
      {
        i := i + 1;
      }
    }

    method Insert(item: QueueItem, i: nat)
      requires Valid() && item !in Repr && i <= |items| && PlacedAt(items, item.rank, item.ticket, i)
      requires forall j | 0 <= j < |items| :: items[j].ticket < item.ticket
      modifies this
      ensures Valid() && Repr == old(Repr) + {item}
      ensures items == Push(old(items), item.Value()) && tickets == old(tickets)[item.signature := item.ticket]
      ensures forall j | 0 <= j < |items| :: items[j].ticket <= item.ticket
    {
      PushedAt(items, item.Value(), i);
      SplicedIn(heap, i, item);
      Splice(item, i);
      pending := pending[item.signature := item];
      tickets := tickets[item.signature := item.ticket];
    }

    method Splice(item: QueueItem, i: nat)
      requires Mirrored() && item !in Repr && i <= |items| && PlacedAt(items, item.rank, item.ticket, i)
      requires forall j | 0 <= j < |items| :: items[j].ticket < item.ticket
      modifies this`heap, this`items, this`Repr
      ensures Mirrored() && Repr == old(Repr) + {item}
      ensures items == Push(old(items), item.Value()) && heap == old(heap)[..i] + [item] + old(heap)[i..]
    {
      PushedAt(items, item.Value(), i);
      heap := heap[..i] + [item] + heap[i..];
      items := Push(items, item.Value());
      Repr := Repr + {item};
    }
  }

  /** An item of this rank and ticket would be yielded before `x`. */
  predicate Precedes(rank: int, ticket: nat, x: Item) {
    rank > x.rank || (rank == x.rank && ticket < x.ticket)
  }

  predicate PlacedAt(queue: seq<Item>, rank: int, ticket: nat, i: nat) {
    && (forall j | 0 <= j < i && j < |queue| :: !Precedes(rank, ticket, queue[j]))
    && (i < |queue| ==> Precedes(rank, ticket, queue[i]))
  }

  /** A bump changes the one item of its ticket. */
  lemma BumpedAt(queue: seq<Item>, j: nat, count: nat)
    requires OneEach(queue) && j < |queue|
    ensures Bump(queue, queue[j].ticket, count) == queue[j := queue[j].(occurrences := count)]
    ensures forall i | 0 <= i < |queue| && i != j :: queue[i].ticket != queue[j].ticket
    ensures OneEach(Bump(queue, queue[j].ticket, count))
  {
    BumpKeepsOrder(queue, queue[j].ticket, count);
    OthersDiffer(queue, j);
  }

  /** A newest item goes in before the first item it is ahead of. */
  lemma PushedAt(queue: seq<Item>, x: Item, i: nat)
    requires OneEach(queue) && i <= |queue| && PlacedAt(queue, x.rank, x.ticket, i)
    requires forall j | 0 <= j < |queue| :: queue[j].ticket < x.ticket
    ensures Push(queue, x) == queue[..i] + [x] + queue[i..] && OneEach(Push(queue, x))
    ensures forall j | 0 <= j < |Push(queue, x)| :: Push(queue, x)[j].ticket <= x.ticket
  {
    PushAt(queue, x, i);
    PushKeepsOneEach(queue, x);
  }

  lemma SplicedIn<T>(s: seq<T>, i: nat, x: T)
    requires i <= |s|
    ensures forall y :: y in s[..i] + [x] + s[i..] <==> y == x || y in s
  {
    assert s == s[..i] + s[i..];
  }

  lemma OthersDiffer(queue: seq<Item>, j: nat)
    requires OneEach(queue) && j < |queue|
    ensures forall i | 0 <= i < |queue| && i != j :: queue[i].ticket != queue[j].ticket
  {
  }

  lemma InWithout<T>(s: seq<T>, v: nat, x: T)
    requires v < |s| && x in s && x != s[v]
    ensures x in Without(s, v)
  {
    var i :| 0 <= i < |s| && s[i] == x;
    assert Without(s, v)[if i < v then i else i - 1] == x;
  }

  lemma {:induction false} PushAt(queue: seq<Item>, x: Item, i: nat)
    requires i <= |queue| && (forall j | 0 <= j < i :: !Ahead(x, queue[j]))
    requires i < |queue| ==> Ahead(x, queue[i])
    ensures Push(queue, x) == queue[..i] + [x] + queue[i..]
  {
    if i > 0 {
      PushAt(queue[1..], x, i - 1);
      assert queue[..i] == [queue[0]] + queue[1..][..i - 1];
      assert queue[i..] == queue[1..][i - 1..];
    }
  }

  lemma {:induction false} OnlyVictim(queue: seq<Item>, v: nat)
    requires v < |queue| && forall j | 0 <= j < |queue| && j != v :: ShedBefore(queue[v], queue[j])
    ensures v == Victim(queue)
  {
    if |queue| > 1 {
      var rest := queue[1..];
      if v == 0 {
        assert ShedBefore(queue[0], rest[Victim(rest)]);
      } else {
        OnlyVictim(rest, v - 1);
      }
    }
  }

  lemma AbsorbedAs(c: Config, s: State, t: State, signature: Signature, rank: int, now: real, fate: Fate)
    requires fate.Aggregated? || fate.Served?
    requires t == s.(queue := t.queue, seen := t.seen, emitted := t.emitted)
    requires t.seen == s.seen[signature := Recorded(c, s.seen, signature, now)]
    requires fate.Aggregated? ==>
               signature in s.pending && t.emitted == s.emitted
               && t.queue == Bump(s.queue, s.pending[signature], |Recorded(c, s.seen, signature, now)|)
    requires fate.Served? ==>
               signature in s.cache && t.queue == s.queue
               && t.emitted == s.emitted + [Emission(signature, 1, true, s.cache[signature].findings)]
    ensures t == Settle(c, s, signature, rank, now, fate)
  {
  }

  lemma AdmittedAs(c: Config, s: State, t: State, signature: Signature, rank: int, now: real, fate: Fate)
    requires t == s.(queue := t.queue, pending := t.pending, counter := s.counter + 1, seen := t.seen,
                     cache := t.cache, dropped := t.dropped)
    requires t.seen == s.seen[signature := Recorded(c, s.seen, signature, now)]
    requires t.cache == Forget(s.cache, signature)
    requires fate.Rejected? || fate.Queued? || fate.Displaced?
    requires t.dropped == s.dropped + if fate.Queued? then 0 else 1
    requires fate.Rejected? ==> t.queue == s.queue && t.pending == s.pending
    requires fate.Queued? ==>
               && t.pending == s.pending[signature := s.counter]
               && t.queue == Push(s.queue, Item(rank, s.counter, signature, |Recorded(c, s.seen, signature, now)|))
    requires fate.Displaced? ==>
               && s.queue != []
               && t.pending == Forget(s.pending, s.queue[Victim(s.queue)].signature)[signature := s.counter]
               && t.queue == Push(Without(s.queue, Victim(s.queue)),
                                  Item(rank, s.counter, signature, |Recorded(c, s.seen, signature, now)|))
    ensures t == Settle(c, s, signature, rank, now, fate)
  {
  }

  class ErrorAnalyzer {
    const config: Config
    const backlog: Backlog
    var counter: nat
    var seen: map<Signature, seq<real>>
    var cache: map<Signature, Cached>
    var flight: Option<Item>
    var dropped: nat
    var analyzed: nat
    var failed: nat
    var emitted: seq<Emission>

    ghost function Now(): State
      reads this, backlog
    {
      State(backlog.items, backlog.tickets, counter, seen, cache, flight, dropped, analyzed, failed, emitted)
    }

    ghost predicate Valid()
      reads this, backlog, backlog.Repr
    {
      && backlog.Valid() && this !in backlog.Repr
      && forall i | 0 <= i < |backlog.items| :: backlog.items[i].ticket < counter
    }

    constructor (config: Config)
      ensures Valid() && fresh(backlog) && fresh(backlog.Repr) && this.config == config && Now() == START
    {
      this.config := config;
      counter, seen, cache, flight := 0, map[], map[], None;
      dropped, analyzed, failed, emitted := 0, 0, 0, [];
      backlog := new Backlog();
    }

    /** `_RecurrenceTracker.record` */
    method Record(signature: Signature, now: real) returns (count: nat)
      modifies this`seen
      ensures var times := Recorded(config, old(seen), signature, now);
              seen == old(seen)[signature := times] && count == |times|
    {
      var times := Recent(if signature in seen then seen[signature] else [], now, config.window) + [now];
      seen := seen[signature := times];
      count := |times|;
    }

    /** `_get_cached`: an expired entry is dropped on the way. */
    method GetCached(signature: Signature, now: real) returns (hit: Option<Cached>)
      modifies this`cache
      ensures hit == if Usable(old(cache), signature, now) then Some(old(cache)[signature]) else None
      ensures hit.Some? ==> cache == old(cache)
      ensures hit.None? ==> cache == Forget(old(cache), signature)
    {
      if signature !in cache {
        assert cache == Forget(cache, signature);
        return None;
      }
      if now > cache[signature].expiry {
        cache := cache - {signature};
        return None;
      }
      hit := Some(cache[signature]);
    }

    /** Hand on a cached analysis, if there is a usable one. */
    method Serve(signature: Signature, now: real) returns (served: bool)
      modifies this`cache, this`emitted
      ensures served <==> Usable(old(cache), signature, now)
      ensures served ==> cache == old(cache)
      ensures served ==> emitted == old(emitted) + [Emission(signature, 1, true, old(cache)[signature].findings)]
      ensures !served ==> cache == Forget(old(cache), signature) && emitted == old(emitted)
    {
      var hit := GetCached(signature, now);
      served := hit.Some?;
      if served {
        emitted := emitted + [Emission(signature, 1, true, hit.value.findings)];
      }
    }

    /** The start of `submit`: an error that is already waiting takes no slot, and its item the new count. */
    method Absorb(signature: Signature, now: real) returns (done: bool, count: nat)
      requires Valid()
      modifies this`seen, backlog.Repr
      ensures Valid() && backlog.Repr == old(backlog.Repr)
      ensures done <==> signature in old(backlog.tickets)
      ensures count == |Recorded(config, old(seen), signature, now)|
      ensures seen == old(seen)[signature := Recorded(config, old(seen), signature, now)]
      ensures backlog.tickets == old(backlog.tickets)
      ensures done ==> backlog.items == Bump(old(backlog.items), backlog.tickets[signature], count)
      ensures !done ==> backlog.items == old(backlog.items)
    {
      count := Record(signature, now);
      done := signature in backlog.pending;
      if done {
        backlog.Aggregate(signature, count);
      }
    }

    /** Returns false when the error was not queued. */
    method Submit(signature: Signature, rank: int, now: real) returns (accepted: bool, ghost fate: Fate)
      requires Valid()
      modifies this, backlog, backlog.Repr
      ensures Valid() && fresh(backlog.Repr - old(backlog.Repr))
      ensures fate == FateOf(config, old(Now()), signature, rank, now)
      ensures Now() == Settle(config, old(Now()), signature, rank, now, fate)
      ensures accepted <==> !fate.Rejected?
    {
      ghost var s := Now();
      var done, count := Absorb(signature, now);
      if done {
        AbsorbedAs(config, s, Now(), signature, rank, now, Aggregated);
        return true, Aggregated;
      }
      accepted, fate := Consider(signature, rank, now, count, s);
    }

    /** An error that is not waiting: explained from the cache, or put in the queue. */
    method Consider(signature: Signature, rank: int, now: real, count: nat, ghost s: State)
      returns (accepted: bool, ghost fate: Fate)
      requires Valid() && signature !in s.pending && count == |Recorded(config, s.seen, signature, now)|
      requires Now() == s.(seen := s.seen[signature := Recorded(config, s.seen, signature, now)])
      modifies this, backlog, backlog.Repr
      ensures Valid() && fresh(backlog.Repr - old(backlog.Repr))
      ensures fate == FateOf(config, s, signature, rank, now)
      ensures Now() == Settle(config, s, signature, rank, now, fate)
      ensures accepted <==> !fate.Rejected?
    {
      var served := Serve(signature, now);
      if served {
        AbsorbedAs(config, s, Now(), signature, rank, now, Served);
        return true, Served;
      }
      accepted, fate := Enqueue(signature, rank, now, count, s);
    }

    /** An error that neither waits nor has a usable result: queued, if there is room for it. */
    method Enqueue(signature: Signature, rank: int, now: real, count: nat, ghost s: State)
      returns (accepted: bool, ghost fate: Fate)
      requires Valid() && signature !in s.pending && count == |Recorded(config, s.seen, signature, now)|
      requires !Usable(s.cache, signature, now)
      requires Now() == s.(seen := s.seen[signature := Recorded(config, s.seen, signature, now)],
                           cache := Forget(s.cache, signature))
      modifies this, backlog, backlog.Repr
      ensures Valid() && fresh(backlog.Repr - old(backlog.Repr))
      ensures fate == FateOf(config, s, signature, rank, now)
      ensures Now() == Settle(config, s, signature, rank, now, fate)
      ensures accepted <==> !fate.Rejected?
    {
      accepted, fate := Admit(signature, rank, count);
      AdmittedAs(config, s, Now(), signature, rank, now, fate);
    }

    /** Room for an item of this rank: there is some, or a less urgent item is shed, or there is none. */
    method MakeRoom(rank: int) returns (room: bool, ghost fate: Fate)
      requires Valid()
      modifies this`dropped, backlog
      ensures Valid() && backlog.Repr == old(backlog.Repr)
      ensures var queue := old(backlog.items);
              fate == if |queue| < config.capacity then Queued
                      else if queue[Victim(queue)].rank >= rank then Rejected else Displaced
      ensures room <==> !fate.Rejected?
      ensures dropped == old(dropped) + if fate.Queued? then 0 else 1
      ensures !fate.Displaced? ==> backlog.items == old(backlog.items) && backlog.tickets == old(backlog.tickets)
      ensures fate.Displaced? ==>
                var queue := old(backlog.items); var v := Victim(queue);
                && backlog.items == Without(queue, v)
                && backlog.tickets == Forget(old(backlog.tickets), queue[v].signature)
    {
      if |backlog.heap| < config.capacity {
        return true, Queued;
      }
      ghost var queue := backlog.items;
      var v := backlog.Lowest();
      assert backlog.heap[v].Value() == queue[v];
      if backlog.heap[v].rank >= rank {
        dropped := dropped + 1;
        return false, Rejected;
      }
      backlog.Remove(v);
      dropped := dropped + 1;
      room, fate := true, Displaced;
    }

    /** The rest of `submit`: a new item, and room for it. */
    method Admit(signature: Signature, rank: int, count: nat) returns (accepted: bool, ghost fate: Fate)
      requires Valid()
      modifies this`counter, this`dropped, backlog, backlog.Repr
      ensures Valid() && fresh(backlog.Repr - old(backlog.Repr))
      ensures counter == old(counter) + 1
      ensures var queue := old(backlog.items);
              fate == if |queue| < config.capacity then Queued
                      else if queue[Victim(queue)].rank >= rank then Rejected else Displaced
      ensures accepted <==> !fate.Rejected?
      ensures dropped == old(dropped) + if fate.Queued? then 0 else 1
      ensures fate.Rejected? ==> backlog.items == old(backlog.items) && backlog.tickets == old(backlog.tickets)
      ensures fate.Queued? ==>
                && backlog.items == Push(old(backlog.items), Item(rank, old(counter), signature, count))
                && backlog.tickets == old(backlog.tickets)[signature := old(counter)]
      ensures fate.Displaced? ==>
                var queue := old(backlog.items); var v := Victim(queue);
                && backlog.items == Push(Without(queue, v), Item(rank, old(counter), signature, count))
                && backlog.tickets == Forget(old(backlog.tickets), queue[v].signature)[signature := old(counter)]
    {
      var ticket := counter;
      accepted, fate := MakeRoom(rank);
      counter := counter + 1;
      if accepted {
        backlog.Add(rank, ticket, signature, count);
      }
    }

    /** `process_next` up to the inference: take the most urgent item. */
    method TakeNext() returns (item: Option<Item>)
      requires Valid() && flight.None?
      modifies this`flight, backlog, backlog.Repr
      ensures Valid() && fresh(backlog.Repr - old(backlog.Repr))
      ensures Now() == Pop(old(Now())) && item == flight
    {
      ghost var queue := backlog.items;
      if |backlog.heap| == 0 {
        return None;
      }
      var head := backlog.heap[0];
      assert head.Value() == queue[0];
      flight := Some(Item(head.rank, head.ticket, head.signature, head.occurrences));
      backlog.Remove(0);
      assert Without(queue, 0) == queue[1..];
      item := flight;
    }

    /** `process_next` from the inference on. */
    method Conclude(reply: Option<Findings>, now: real)
      requires Valid()
      modifies this`flight, this`failed, this`analyzed, this`cache, this`emitted
      ensures Valid() && Now() == Finish(config, old(Now()), reply, now)
    {
      if flight.None? {
        return;
      }
      var item := flight.value;
      flight := None;
      if reply.None? {
        failed := failed + 1;
        return;
      }
      analyzed := analyzed + 1;
      cache := cache[item.signature := Cached(now + config.cacheTtl, reply.value)];
      emitted := emitted + [Emission(item.signature, item.occurrences, false, reply.value)];
    }
  }
}
