/** The sliding window and the result cache, in terms of what was submitted and analysed, and when. */
module Recurrence {
  import opened Basics
  import opened AnalyzerModel
  import opened AnalyzerRuns
  import opened Accounting

  ghost predicate ClockRuns(es: seq<Event>) {
    forall i, j | 0 <= i < j < |es| :: es[i].now <= es[j].now
  }

  lemma ClockRunsBefore(es: seq<Event>)
    requires es != [] && ClockRuns(es)
    ensures ClockRuns(es[..|es| - 1]) && forall i | 0 <= i < |es| :: es[i].now <= es[|es| - 1].now
  {
  }

  // ---------- the window ----------

  /** The submissions of an error that are no further back than the window, seen from `now`. */
  function InWindow(c: Config, es: seq<Event>, signature: Signature, now: real): nat {
    if es == [] then 0
    else
      var before, e := InWindow(c, es[..|es| - 1], signature, now), es[|es| - 1];
      if Recurs(e, signature) && e.now + c.window >= now then before + 1 else before
  }

  /** That count as it was when the error was last submitted, this submission included. */
  function LatestCount(c: Config, es: seq<Event>, signature: Signature): nat {
    if es == [] then 0
    else if Recurs(es[|es| - 1], signature) then InWindow(c, es[..|es| - 1], signature, es[|es| - 1].now) + 1
    else LatestCount(c, es[..|es| - 1], signature)
  }

  lemma {:induction false} RecentOfOneMore(times: seq<real>, t: real, now: real, window: real)
    ensures now - t <= window ==> Recent(times + [t], now, window) == Recent(times, now, window) + [t]
    ensures now - t > window ==> Recent(times + [t], now, window) == Recent(times, now, window)
  {
    if times == [] {
      assert times + [t] == [t] && [t][1..] == [];
      assert Recent([], now, window) == [];
    } else {
      assert (times + [t])[1..] == times[1..] + [t];
      RecentOfOneMore(times[1..], t, now, window);
    }
  }

  /** What was forgotten once would be forgotten later anyway. */
  lemma {:induction false} RecentOfRecent(times: seq<real>, t: real, now: real, window: real)
    requires t <= now
    ensures Recent(Recent(times, t, window), now, window) == Recent(times, now, window)
  {
    if times != [] {
      RecentOfRecent(times[1..], t, now, window);
      if t - times[0] <= window {
        var rest := Recent(times[1..], t, window);
        assert ([times[0]] + rest)[1..] == rest;
      }
    }
  }

  /** The remembered times are enough to count the window from any later moment. */
  lemma {:induction false} WindowIsRemembered(c: Config, es: seq<Event>, signature: Signature, now: real)
    requires ClockRuns(es) && (es != [] ==> es[|es| - 1].now <= now)
    ensures |Recent(Seen(Run(c, START, es).seen, signature), now, c.window)| == InWindow(c, es, signature, now)
  {
    if es != [] {
      var front, e := es[..|es| - 1], es[|es| - 1];
      ClockRunsBefore(es);
      WindowIsRemembered(c, front, signature, now);
      SeenAfter(c, Run(c, START, front), e, signature);
      if Recurs(e, signature) {
        var times := Seen(Run(c, START, front).seen, signature);
        RecentOfOneMore(Recent(times, e.now, c.window), e.now, now, c.window);
        RecentOfRecent(times, e.now, now, c.window);
      }
    }
  }

  /** Every waiting item stands for the window as its error was last submitted. */
  ghost predicate CountsWindows(c: Config, s: State, es: seq<Event>) {
    forall x | x in s.queue :: x.occurrences == LatestCount(c, es, x.signature)
  }

  lemma RecordedCountsTheWindow(c: Config, es: seq<Event>)
    requires es != [] && ClockRuns(es) && es[|es| - 1].Submitted?
    ensures var e := es[|es| - 1];
            |Recorded(c, Run(c, START, es[..|es| - 1]).seen, e.signature, e.now)| == LatestCount(c, es, e.signature)
  {
    ClockRunsBefore(es);
    WindowIsRemembered(c, es[..|es| - 1], es[|es| - 1].signature, es[|es| - 1].now);
  }

  /** What a submission leaves in the queue: the other errors' items as they were, and its own with the new count. */
  lemma QueueAfterSubmit(c: Config, s: State, e: Event, x: Item)
    requires Sound(c, s) && e.Submitted? && x in Step(c, s, e).queue
    ensures x.signature != e.signature ==> x in s.queue
    ensures x.signature == e.signature ==> x.occurrences == |Recorded(c, s.seen, e.signature, e.now)|
  {
    var count := |Recorded(c, s.seen, e.signature, e.now)|;
    var item := Item(e.rank, s.counter, e.signature, count);
    match FateOf(c, s, e.signature, e.rank, e.now)
    case Aggregated => BumpedItem(s, e.signature, count, x);
    case Served => NotPendingNotQueued(s, e.signature);
    case Rejected => NotPendingNotQueued(s, e.signature);
    case Queued =>
      NotPendingNotQueued(s, e.signature);
      PushMembers(s.queue, item);
    case Displaced =>
      NotPendingNotQueued(s, e.signature);
      WithoutKeepsOrder(s.queue, Victim(s.queue));
      PushMembers(Without(s.queue, Victim(s.queue)), item);
  }

  lemma BumpedItem(s: State, signature: Signature, count: nat, x: Item)
    requires Indexed(s) && signature in s.pending && x in Bump(s.queue, s.pending[signature], count)
    ensures x.signature != signature ==> x in s.queue
    ensures x.signature == signature ==> x.occurrences == count
  {
    BumpKeepsOrder(s.queue, s.pending[signature], count);
    var i :| 0 <= i < |s.queue| && Bump(s.queue, s.pending[signature], count)[i] == x;
    assert s.queue[i] in s.queue;
    if s.queue[i].ticket == s.pending[signature] {
      var z :| z in s.queue && z.signature == signature;
      SameTicketSameItem(s.queue, s.queue[i], z);
    }
  }

  /**
    Whatever was submitted in between and however long ago: a waiting error stands for exactly its own
    submissions no further back than the window when it was last submitted, that one included.
   */
  lemma {:induction false} ItemsCountTheWindow(c: Config, es: seq<Event>)
    requires ClockRuns(es)
    ensures CountsWindows(c, Run(c, START, es), es)
  {
    if es != [] {
      var front, e := es[..|es| - 1], es[|es| - 1];
      ClockRunsBefore(es);
      ItemsCountTheWindow(c, front);
      QueueIsSound(c, front);
      var s, s' := Run(c, START, front), Run(c, START, es);
      forall x | x in s'.queue ensures x.occurrences == LatestCount(c, es, x.signature) {
        if e.Submitted? {
          QueueAfterSubmit(c, s, e, x);
          RecordedCountsTheWindow(c, es);
        } else {
          assert x in s.queue;
        }
      }
    }
  }

  /** How many events there had been when the item under analysis was taken. */
  function TakenAt(c: Config, es: seq<Event>): nat {
    if es == [] then 0
    else
      var front := es[..|es| - 1];
      if Run(c, START, front).flight.None? && es[|es| - 1].Popped? then |front| else TakenAt(c, front)
  }

  lemma FlightAfter(c: Config, s: State, e: Event)
    requires Step(c, s, e).flight.Some?
    ensures if s.flight.None? && e.Popped? then Step(c, s, e).flight.value in s.queue else Step(c, s, e).flight == s.flight
  {
  }

  lemma {:induction false} FlightCountsTheWindow(c: Config, es: seq<Event>)
    requires ClockRuns(es)
    ensures TakenAt(c, es) <= |es|
    ensures var flight := Run(c, START, es).flight;
            flight.Some? ==> flight.value.occurrences == LatestCount(c, es[..TakenAt(c, es)], flight.value.signature)
  {
    if es != [] {
      var front := es[..|es| - 1];
      ClockRunsBefore(es);
      FlightCountsTheWindow(c, front);
      ItemsCountTheWindow(c, front);
      assert front[..TakenAt(c, front)] == es[..TakenAt(c, front)];
      if Run(c, START, es).flight.Some? {
        FlightAfter(c, Run(c, START, front), es[|es| - 1]);
      }
    }
  }

  /** A result stands for the window of its error as it was when the item was taken, and a failed analysis for nothing. */
  lemma ResultsCountTheWindow(c: Config, es: seq<Event>, now: real, reply: Option<Findings>)
    requires ClockRuns(es) && Run(c, START, es).flight.Some?
    ensures var s, s' := Run(c, START, es), Run(c, START, es + [Finished(now, reply)]);
            var signature := s.flight.value.signature;
            && TakenAt(c, es) <= |es| && s'.flight.None?
            && (reply.Some? ==>
                  s'.emitted == s.emitted
                    + [Emission(signature, LatestCount(c, es[..TakenAt(c, es)], signature), false, reply.value)])
            && (reply.None? ==> s'.emitted == s.emitted)
            && s'.analyzed == s.analyzed + (if reply.Some? then 1 else 0)
            && s'.failed == s.failed + (if reply.None? then 1 else 0)
  {
    var more := es + [Finished(now, reply)];
    assert more[..|es|] == es && more[|es|] == Finished(now, reply);
    FlightCountsTheWindow(c, es);
  }

  // ---------- the cache ----------

  /** The latest successful analysis of an error: when it ended, and what it found. */
  function LatestAnswer(c: Config, es: seq<Event>, signature: Signature): Option<(real, Findings)> {
    if es == [] then None
    else if Analysed(c, es, signature, |es| - 1) then Some((es[|es| - 1].now, es[|es| - 1].reply.value))
    else LatestAnswer(c, es[..|es| - 1], signature)
  }

  /** The cache holds the latest answer, or has dropped it because it is too old by now. */
  ghost predicate Caches(c: Config, cache: map<Signature, Cached>, signature: Signature, answer: Option<(real, Findings)>, now: real) {
    && (signature in cache ==>
          answer.Some? && cache[signature] == Cached(answer.value.0 + c.cacheTtl, answer.value.1))
    && (signature !in cache ==> answer.None? || answer.value.0 + c.cacheTtl < now)
  }

  lemma {:induction false} CacheHoldsTheLatestAnswer(c: Config, es: seq<Event>, signature: Signature, now: real)
    requires ClockRuns(es) && (es != [] ==> es[|es| - 1].now <= now)
    ensures Caches(c, Run(c, START, es).cache, signature, LatestAnswer(c, es, signature), now)
  {
    if es != [] {
      var front, e := es[..|es| - 1], es[|es| - 1];
      ClockRunsBefore(es);
      CacheHoldsTheLatestAnswer(c, front, signature, e.now);
      StepCaches(c, Run(c, START, front), e, signature, LatestAnswer(c, front, signature));
    }
  }

  lemma StepCaches(c: Config, s: State, e: Event, signature: Signature, answer: Option<(real, Findings)>)
    requires Caches(c, s.cache, signature, answer, e.now)
    ensures var analysed := e.Finished? && e.reply.Some? && InFlight(s, signature);
            Caches(c, Step(c, s, e).cache, signature, if analysed then Some((e.now, e.reply.value)) else answer, e.now)
  {
    if e.Submitted? {
      var fate := FateOf(c, s, e.signature, e.rank, e.now);
      assert fate.Displaced? ==> s.queue != [];
    }
  }

  /**
    A recurring error that is not waiting is answered from the cache exactly when its latest analysis
    ended no longer ago than results are kept, and with what that analysis found.
   */
  lemma AnsweredFromCacheExactlyWhen(c: Config, es: seq<Event>, signature: Signature, rank: int, now: real)
    requires ClockRuns(es + [Submitted(now, signature, rank)])
    ensures var s, s' := Run(c, START, es), Run(c, START, es + [Submitted(now, signature, rank)]);
            var answer := LatestAnswer(c, es, signature);
            var fromCache := (forall x | x in s.queue :: x.signature != signature)
                             && answer.Some? && now <= answer.value.0 + c.cacheTtl;
            && (fromCache ==> s'.emitted == s.emitted + [Emission(signature, 1, true, answer.value.1)] && s'.queue == s.queue)
            && (!fromCache ==> s'.emitted == s.emitted)
  {
    var last := Submitted(now, signature, rank);
    var more := es + [last];
    assert more[..|es|] == es && more[|es|] == last;
    ClockRunsBefore(more);
    CacheHoldsTheLatestAnswer(c, es, signature, now);
    QueueIsSound(c, es);
    AnsweredWhen(c, Run(c, START, es), last);
  }

  lemma AnsweredWhen(c: Config, s: State, e: Event)
    requires Sound(c, s) && e.Submitted?
    ensures var s' := Step(c, s, e);
            var fromCache := (forall x | x in s.queue :: x.signature != e.signature)
                             && e.signature in s.cache && e.now <= s.cache[e.signature].expiry;
            && (fromCache ==> s'.emitted == s.emitted + [Emission(e.signature, 1, true, s.cache[e.signature].findings)]
                              && s'.queue == s.queue)
            && (!fromCache ==> s'.emitted == s.emitted)
  {
    if e.signature !in s.pending {
      NotPendingNotQueued(s, e.signature);
    }
  }
}
