/** Occurrences, from submission to the stored proposal. */
module Accounting {
  import opened Basics
  import opened AnalyzerModel
  import opened AnalyzerRuns
  import opened Records
  import Remediation = RemediationModel

  predicate Recurs(e: Event, signature: Signature) {
    e.Submitted? && e.signature == signature
  }

  function Submits(es: seq<Event>, signature: Signature): nat {
    if es == [] then 0
    else
      var before := Submits(es[..|es| - 1], signature);
      if Recurs(es[|es| - 1], signature) then before + 1 else before
  }

  /** Occurrences emitted for a signature, cached or not. */
  function Emitted(emitted: seq<Emission>, signature: Signature): nat {
    if emitted == [] then 0
    else
      var last := emitted[|emitted| - 1];
      Emitted(emitted[..|emitted| - 1], signature) + if last.signature == signature then last.occurrences else 0
  }

  lemma EmittedOneMore(emitted: seq<Emission>, e: Emission, signature: Signature)
    ensures Emitted(emitted + [e], signature)
         == Emitted(emitted, signature) + if e.signature == signature then e.occurrences else 0
  {
    assert (emitted + [e])[..|emitted|] == emitted;
  }

  predicate InFlight(s: State, signature: Signature) {
    s.flight.Some? && s.flight.value.signature == signature
  }

  /** At step `i` the error is analysed, and the result cached. */
  predicate Analysed(c: Config, es: seq<Event>, signature: Signature, i: nat) {
    i < |es| && es[i].Finished? && es[i].reply.Some? && InFlight(Run(c, START, es[..i]), signature)
  }

  predicate WithinWindow(c: Config, es: seq<Event>, signature: Signature) {
    forall i, j | 0 <= i < j < |es| && Recurs(es[i], signature) && Recurs(es[j], signature) ::
      es[j].now - es[i].now <= c.window
  }

  /** An error's submissions fit in one recurrence window, and its own cached results outlive them. */
  ghost predicate OneWindow(c: Config, es: seq<Event>, signature: Signature) {
    && WithinWindow(c, es, signature)
    && (forall i, j | 0 <= i < j < |es| && Analysed(c, es, signature, i) && Recurs(es[j], signature) ::
          es[j].now - es[i].now <= c.cacheTtl)
  }

  lemma AnalysedBefore(c: Config, es: seq<Event>, signature: Signature, i: nat)
    requires es != [] && i < |es| - 1
    ensures Analysed(c, es[..|es| - 1], signature, i) <==> Analysed(c, es, signature, i)
  {
    assert es[..|es| - 1][..i] == es[..i];
  }

  lemma OneWindowBefore(c: Config, es: seq<Event>, signature: Signature)
    requires es != [] && OneWindow(c, es, signature)
    ensures OneWindow(c, es[..|es| - 1], signature)
  {
    var front := es[..|es| - 1];
    forall i, j | 0 <= i < j < |front| && Analysed(c, front, signature, i) && Recurs(front[j], signature)
      ensures front[j].now - front[i].now <= c.cacheTtl
    {
      AnalysedBefore(c, es, signature, i);
      assert Recurs(es[j], signature);
    }
  }

  ghost predicate SubmittedBefore(es: seq<Event>, signature: Signature) {
    exists k | 0 <= k < |es| :: Recurs(es[k], signature)
  }

  /** What waits or is being analysed was submitted. */
  lemma {:induction false} WaitingWasSubmitted(c: Config, es: seq<Event>, signature: Signature)
    ensures var s := Run(c, START, es);
            InFlight(s, signature) || signature in s.pending ==> SubmittedBefore(es, signature)
  {
    if es != [] {
      var front, e := es[..|es| - 1], es[|es| - 1];
      WaitingWasSubmitted(c, front, signature);
      QueueIsSound(c, front);
      if k :| 0 <= k < |front| && Recurs(front[k], signature) {
        assert Recurs(es[k], signature);
      } else if Recurs(e, signature) {
        assert Recurs(es[|es| - 1], signature);
      } else {
        NewlyWaiting(c, Run(c, START, front), e, signature);
      }
    }
  }

  lemma NewlyWaiting(c: Config, s: State, e: Event, signature: Signature)
    requires Indexed(s) && !Recurs(e, signature) && !InFlight(s, signature) && signature !in s.pending
    ensures !InFlight(Step(c, s, e), signature) && signature !in Step(c, s, e).pending
  {
    if e.Popped? && s.queue != [] {
      assert s.queue[0] in s.queue;
    }
  }

  /** With a result kept at least as long as the window, as shipped, and a clock that never runs backwards, one window is all it takes. */
  lemma WindowSuffices(c: Config, es: seq<Event>, signature: Signature)
    requires c.window <= c.cacheTtl && (forall i, j | 0 <= i < j < |es| :: es[i].now <= es[j].now)
    requires WithinWindow(c, es, signature)
    ensures OneWindow(c, es, signature)
  {
    forall i, j | 0 <= i < j < |es| && Analysed(c, es, signature, i) && Recurs(es[j], signature)
      ensures es[j].now - es[i].now <= c.cacheTtl
    {
      WaitingWasSubmitted(c, es[..i], signature);
      var k :| 0 <= k < |es[..i]| && Recurs(es[..i][k], signature);
      assert Recurs(es[k], signature);
    }
  }

  // ---------- the recurrence count ----------

  lemma {:induction false} AllRecent(times: seq<real>, now: real, window: real)
    requires forall t | t in times :: now - t <= window
    ensures Recent(times, now, window) == times
  {
    if times != [] {
      assert times[0] in times && forall t | t in times[1..] :: t in times;
      AllRecent(times[1..], now, window);
    }
  }

  ghost predicate CountsSubmits(s: State, es: seq<Event>, signature: Signature) {
    && |Seen(s.seen, signature)| == Submits(es, signature)
    && forall t | t in Seen(s.seen, signature) :: exists i | 0 <= i < |es| :: Recurs(es[i], signature) && es[i].now == t
  }

  lemma SeenAfter(c: Config, s: State, e: Event, signature: Signature)
    ensures e.Submitted? && e.signature == signature ==>
              Seen(Step(c, s, e).seen, signature) == Recorded(c, s.seen, signature, e.now)
    ensures !(e.Submitted? && e.signature == signature) ==> Seen(Step(c, s, e).seen, signature) == Seen(s.seen, signature)
  {
    if e.Submitted? {
      SubmitSees(c, s, e.signature, e.rank, e.now);
    }
  }

  lemma SubmitSees(c: Config, s: State, signature: Signature, rank: int, now: real)
    ensures Submit(c, s, signature, rank, now).seen == s.seen[signature := Recorded(c, s.seen, signature, now)]
  {
    var fate := FateOf(c, s, signature, rank, now);
    assert fate.Displaced? ==> s.queue != [];
  }

  lemma {:induction false} EverySubmitIsRemembered(c: Config, es: seq<Event>, signature: Signature)
    requires OneWindow(c, es, signature)
    ensures CountsSubmits(Run(c, START, es), es, signature)
  {
    if es != [] {
      var front, e := es[..|es| - 1], es[|es| - 1];
      OneWindowBefore(c, es, signature);
      EverySubmitIsRemembered(c, front, signature);
      SeenAfter(c, Run(c, START, front), e, signature);
      var times := Seen(Run(c, START, front).seen, signature);
      forall t | t in times ensures exists i | 0 <= i < |es| - 1 :: Recurs(es[i], signature) && es[i].now == t {
        var i :| 0 <= i < |front| && Recurs(front[i], signature) && front[i].now == t;
        assert Recurs(es[i], signature) && es[i].now == t;
      }
      if Recurs(e, signature) {
        assert Recurs(es[|es| - 1], signature) && es[|es| - 1].now == e.now;
        AllRecent(times, e.now, c.window);
      }
    }
  }

  // ---------- emissions ----------

  /** A cached result dates from an analysis of its own error. */
  ghost predicate CacheIsDated(c: Config, es: seq<Event>, signature: Signature, expiry: real) {
    exists i | 0 <= i < |es| :: Analysed(c, es, signature, i) && expiry == es[i].now + c.cacheTtl
  }

  /** A step caches at most what it has just analysed. */
  lemma CacheAfter(c: Config, s: State, e: Event, k: Signature)
    requires k in Step(c, s, e).cache
    ensures (k in s.cache && Step(c, s, e).cache[k] == s.cache[k])
            || (e.Finished? && e.reply.Some? && InFlight(s, k) && Step(c, s, e).cache[k].expiry == e.now + c.cacheTtl)
  {
  }

  lemma {:induction false} CachedResultIsDated(c: Config, es: seq<Event>, signature: Signature)
    requires signature in Run(c, START, es).cache
    ensures CacheIsDated(c, es, signature, Run(c, START, es).cache[signature].expiry)
  {
    if es != [] {
      var front, e := es[..|es| - 1], es[|es| - 1];
      var s, cache' := Run(c, START, front), Run(c, START, es).cache;
      CacheAfter(c, s, e, signature);
      if signature in s.cache && cache'[signature] == s.cache[signature] {
        CachedResultIsDated(c, front, signature);
        var i :| 0 <= i < |front| && Analysed(c, front, signature, i) && s.cache[signature].expiry == front[i].now + c.cacheTtl;
        AnalysedBefore(c, es, signature, i);
        assert cache'[signature].expiry == es[i].now + c.cacheTtl;
      } else {
        assert Analysed(c, es, signature, |es| - 1);
      }
    }
  }

  /** Nothing is queued, analysed or emitted for no occurrence at all. */
  ghost predicate Positive(s: State) {
    && (forall x | x in s.queue :: x.occurrences > 0)
    && (s.flight.Some? ==> s.flight.value.occurrences > 0)
    && (forall e | e in s.emitted :: e.occurrences > 0)
  }

  lemma {:induction false} EveryItemCounts(c: Config, es: seq<Event>)
    ensures Positive(Run(c, START, es))
  {
    if es != [] {
      var front, e := es[..|es| - 1], es[|es| - 1];
      EveryItemCounts(c, front);
      QueueIsSound(c, front);
      var s := Run(c, START, front);
      if e.Submitted? {
        SubmitIsPositive(c, s, e);
      }
    }
  }

  lemma SubmitIsPositive(c: Config, s: State, e: Event)
    requires Sound(c, s) && Positive(s) && e.Submitted?
    ensures Positive(Step(c, s, e))
  {
    var x := Item(e.rank, s.counter, e.signature, |Recorded(c, s.seen, e.signature, e.now)|);
    match FateOf(c, s, e.signature, e.rank, e.now)
    case Aggregated =>
      BumpKeepsOrder(s.queue, s.pending[e.signature], x.occurrences);
      forall y | y in Step(c, s, e).queue ensures y.occurrences > 0 {
        var i :| 0 <= i < |s.queue| && Step(c, s, e).queue[i] == y;
        assert s.queue[i] in s.queue;
      }
    case Served =>
    case Rejected =>
    case Queued => PushMembers(s.queue, x);
    case Displaced =>
      WithoutKeepsOrder(s.queue, Victim(s.queue));
      PushMembers(Without(s.queue, Victim(s.queue)), x);
  }

  /** An analysis succeeds whose item stands for fewer occurrences than there have been. */
  predicate Miscounts(c: Config, es: seq<Event>, signature: Signature, i: nat) {
    && i < |es| && es[i].Finished? && es[i].reply.Some?
    && (var flight := Run(c, START, es[..i]).flight;
        flight.Some? && flight.value.signature == signature && flight.value.occurrences != Submits(es[..i], signature))
  }

  predicate NeverMiscounts(c: Config, es: seq<Event>, signature: Signature) {
    forall i | 0 <= i < |es| :: !Miscounts(c, es, signature, i)
  }

  lemma MiscountsBefore(c: Config, es: seq<Event>, signature: Signature)
    requires es != []
    ensures NeverMiscounts(c, es, signature) <==>
              NeverMiscounts(c, es[..|es| - 1], signature) && !Miscounts(c, es, signature, |es| - 1)
  {
    var front := es[..|es| - 1];
    forall i | 0 <= i < |front| ensures Miscounts(c, front, signature, i) <==> Miscounts(c, es, signature, i) {
      assert front[..i] == es[..i];
    }
  }

  /**
    What is known of one signature after `n` submissions. While it waits, its item stands for all of
    them. Until its first successful analysis nothing is emitted, and an item overtaken during its own
    analysis stands for fewer. After that the emissions are exact for good, or, once an analysis
    miscounted, never: too few until the overtaking item is analysed as well, and too many afterwards.
   */
  ghost predicate Tallied(s: State, n: nat, signature: Signature, exact: bool) {
    var emitted, waiting := Emitted(s.emitted, signature), signature in s.pending;
    && (forall x | x in s.queue && x.signature == signature :: x.occurrences == n)
    && (signature !in s.cache ==>
          && emitted == 0 && exact
          && (InFlight(s, signature) ==>
                0 < s.flight.value.occurrences <= n && (waiting ==> s.flight.value.occurrences < n)))
    && (signature in s.cache && exact ==> emitted == n > 0 && !waiting && !InFlight(s, signature))
    && (signature in s.cache && !exact ==>
          && 0 < emitted != n && (waiting ==> emitted < n && !InFlight(s, signature))
          && (InFlight(s, signature) ==> emitted < n < emitted + s.flight.value.occurrences))
  }

  lemma NotPendingNotQueued(s: State, signature: Signature)
    requires Indexed(s) && signature !in s.pending
    ensures forall x | x in s.queue :: x.signature != signature
  {
  }

  lemma BumpIsTallied(c: Config, s: State, e: Event, n: nat, signature: Signature, exact: bool)
    requires Sound(c, s) && e.Submitted? && Tallied(s, n, signature, exact) && e.signature in s.pending
    requires e.signature == signature ==> |Recorded(c, s.seen, signature, e.now)| == n + 1
    ensures Tallied(Step(c, s, e), if e.signature == signature then n + 1 else n, signature, exact)
  {
    var count, s' := |Recorded(c, s.seen, e.signature, e.now)|, Step(c, s, e);
    BumpKeepsOrder(s.queue, s.pending[e.signature], count);
    var n' := if e.signature == signature then n + 1 else n;
    forall y | y in s'.queue && y.signature == signature ensures y.occurrences == n' {
      var i :| 0 <= i < |s'.queue| && s'.queue[i] == y;
      assert s.queue[i] in s.queue;
      if s.queue[i].ticket == s.pending[e.signature] {
        var z :| z in s.queue && z.signature == e.signature;
        SameTicketSameItem(s.queue, s.queue[i], z);
      }
    }
  }

  lemma ServedIsTallied(c: Config, s: State, e: Event, n: nat, signature: Signature, exact: bool)
    requires Sound(c, s) && e.Submitted? && Tallied(s, n, signature, exact)
    requires FateOf(c, s, e.signature, e.rank, e.now) == Served
    ensures Tallied(Step(c, s, e), if e.signature == signature then n + 1 else n, signature, exact)
  {
    EmittedOneMore(s.emitted, Emission(e.signature, 1, true, s.cache[e.signature].findings), signature);
    NotPendingNotQueued(s, e.signature);
  }

  lemma AdmittedIsTallied(c: Config, s: State, e: Event, n: nat, signature: Signature, exact: bool)
    requires Sound(c, s) && e.Submitted? && Tallied(s, n, signature, exact)
    requires Admitting(FateOf(c, s, e.signature, e.rank, e.now))
    requires e.signature == signature ==> |Recorded(c, s.seen, signature, e.now)| == n + 1
    requires e.signature == signature ==> signature !in s.cache
    ensures Tallied(Step(c, s, e), if e.signature == signature then n + 1 else n, signature, exact)
  {
    var x := Item(e.rank, s.counter, e.signature, |Recorded(c, s.seen, e.signature, e.now)|);
    NotPendingNotQueued(s, e.signature);
    match FateOf(c, s, e.signature, e.rank, e.now)
    case Rejected =>
    case Queued => PushMembers(s.queue, x);
    case Displaced =>
      WithoutKeepsOrder(s.queue, Victim(s.queue));
      PushMembers(Without(s.queue, Victim(s.queue)), x);
  }

  lemma SubmitIsTallied(c: Config, s: State, e: Event, n: nat, signature: Signature, exact: bool)
    requires Sound(c, s) && e.Submitted? && Tallied(s, n, signature, exact)
    requires e.signature == signature ==> |Recorded(c, s.seen, signature, e.now)| == n + 1
    requires e.signature == signature && signature in s.cache ==> Usable(s.cache, signature, e.now)
    ensures Tallied(Step(c, s, e), if e.signature == signature then n + 1 else n, signature, exact)
  {
    match FateOf(c, s, e.signature, e.rank, e.now)
    case Aggregated => BumpIsTallied(c, s, e, n, signature, exact);
    case Served => ServedIsTallied(c, s, e, n, signature, exact);
    case _ => AdmittedIsTallied(c, s, e, n, signature, exact);
  }

  lemma PopIsTallied(c: Config, s: State, n: nat, signature: Signature, exact: bool)
    requires Sound(c, s) && Positive(s) && Tallied(s, n, signature, exact)
    ensures Tallied(Pop(s), n, signature, exact)
  {
    if s.queue != [] && s.flight.None? {
      assert s.queue[0] in s.queue;
    }
  }

  lemma AnsweredIsTallied(c: Config, s: State, e: Event, n: nat, signature: Signature, exact: bool)
    requires e.Finished? && e.reply.Some? && Positive(s) && Tallied(s, n, signature, exact) && InFlight(s, signature)
    ensures Tallied(Step(c, s, e), n, signature, exact && s.flight.value.occurrences == n)
  {
    var item := s.flight.value;
    EmittedOneMore(s.emitted, Emission(signature, item.occurrences, false, e.reply.value), signature);
  }

  lemma OtherFinishIsTallied(c: Config, s: State, e: Event, n: nat, signature: Signature, exact: bool)
    requires e.Finished? && Tallied(s, n, signature, exact) && !(e.reply.Some? && InFlight(s, signature))
    ensures Tallied(Step(c, s, e), n, signature, exact)
  {
    if s.flight.Some? && e.reply.Some? {
      var item := s.flight.value;
      EmittedOneMore(s.emitted, Emission(item.signature, item.occurrences, false, e.reply.value), signature);
    }
  }

  lemma FinishIsTallied(c: Config, s: State, e: Event, n: nat, signature: Signature, exact: bool)
    requires e.Finished? && Positive(s) && Tallied(s, n, signature, exact)
    ensures var miscounts := e.reply.Some? && InFlight(s, signature) && s.flight.value.occurrences != n;
            Tallied(Step(c, s, e), n, signature, exact && !miscounts)
  {
    if e.reply.Some? && InFlight(s, signature) {
      AnsweredIsTallied(c, s, e, n, signature, exact);
    } else {
      OtherFinishIsTallied(c, s, e, n, signature, exact);
    }
  }

  lemma {:induction false} RunIsTallied(c: Config, es: seq<Event>, signature: Signature)
    requires OneWindow(c, es, signature)
    ensures Tallied(Run(c, START, es), Submits(es, signature), signature, NeverMiscounts(c, es, signature))
  {
    if es != [] {
      var front, e := es[..|es| - 1], es[|es| - 1];
      var s, n, exact := Run(c, START, front), Submits(front, signature), NeverMiscounts(c, front, signature);
      OneWindowBefore(c, es, signature);
      RunIsTallied(c, front, signature);
      MiscountsBefore(c, es, signature);
      QueueIsSound(c, front);
      EveryItemCounts(c, front);
      match e
      case Submitted(now, _, _) =>
        if Recurs(e, signature) {
          SubmitIsCounted(c, es, signature);
          if signature in s.cache {
            CacheIsUsable(c, es, signature);
          }
        }
        SubmitIsTallied(c, s, e, n, signature, exact);
      case Popped(_) => PopIsTallied(c, s, n, signature, exact);
      case Finished(_, _) => FinishIsTallied(c, s, e, n, signature, exact);
    }
  }

  /** Inside one window the recurrence count is the number of submissions. */
  lemma SubmitIsCounted(c: Config, es: seq<Event>, signature: Signature)
    requires es != [] && OneWindow(c, es, signature) && Recurs(es[|es| - 1], signature)
    ensures |Recorded(c, Run(c, START, es[..|es| - 1]).seen, signature, es[|es| - 1].now)|
         == Submits(es[..|es| - 1], signature) + 1
  {
    var front, e := es[..|es| - 1], es[|es| - 1];
    var times := Seen(Run(c, START, front).seen, signature);
    OneWindowBefore(c, es, signature);
    EverySubmitIsRemembered(c, front, signature);
    forall t | t in times ensures e.now - t <= c.window {
      var i :| 0 <= i < |front| && Recurs(front[i], signature) && front[i].now == t;
      assert es[i] == front[i];
    }
    AllRecent(times, e.now, c.window);
  }

  /** Inside one window every cached result is still good. */
  lemma CacheIsUsable(c: Config, es: seq<Event>, signature: Signature)
    requires es != [] && OneWindow(c, es, signature) && Recurs(es[|es| - 1], signature)
    requires signature in Run(c, START, es[..|es| - 1]).cache
    ensures Usable(Run(c, START, es[..|es| - 1]).cache, signature, es[|es| - 1].now)
  {
    var front := es[..|es| - 1];
    var cache := Run(c, START, front).cache;
    CachedResultIsDated(c, front, signature);
    var i :| 0 <= i < |front| && Analysed(c, front, signature, i) && cache[signature].expiry == front[i].now + c.cacheTtl;
    AnalysedBefore(c, es, signature, i);
  }

  /**
    Once an error has been analysed, its emissions count its submissions exactly if and only if no
    analysis of it ever succeeded with an item it had meanwhile overtaken.
   */
  lemma TallyIsExactExactlyWhen(c: Config, es: seq<Event>, signature: Signature)
    requires OneWindow(c, es, signature)
    ensures var s := Run(c, START, es);
            && (signature !in s.cache ==> Emitted(s.emitted, signature) == 0)
            && (signature in s.cache ==>
                  (Emitted(s.emitted, signature) == Submits(es, signature) <==> NeverMiscounts(c, es, signature)))
  {
    RunIsTallied(c, es, signature);
  }

  /** The error is never submitted while it is being analysed. */
  ghost predicate QuietDuringAnalysis(c: Config, es: seq<Event>, signature: Signature) {
    forall i | 0 <= i < |es| && Recurs(es[i], signature) :: !InFlight(Run(c, START, es[..i]), signature)
  }

  predicate Current(s: State, n: nat, signature: Signature) {
    InFlight(s, signature) ==> s.flight.value.occurrences == n
  }

  lemma FlightStaysCurrent(c: Config, s: State, e: Event, n: nat, signature: Signature)
    requires Current(s, n, signature) && (Recurs(e, signature) ==> !InFlight(s, signature))
    requires forall x | x in s.queue && x.signature == signature :: x.occurrences == n
    ensures Current(Step(c, s, e), if Recurs(e, signature) then n + 1 else n, signature)
  {
    if e.Popped? && s.queue != [] {
      assert s.queue[0] in s.queue;
    }
  }

  lemma {:induction false} QuietFlightsAreCurrent(c: Config, es: seq<Event>, signature: Signature)
    requires OneWindow(c, es, signature) && QuietDuringAnalysis(c, es, signature)
    ensures Current(Run(c, START, es), Submits(es, signature), signature)
    ensures NeverMiscounts(c, es, signature)
  {
    if es != [] {
      var front := es[..|es| - 1];
      OneWindowBefore(c, es, signature);
      forall i | 0 <= i < |front| && Recurs(front[i], signature) ensures !InFlight(Run(c, START, front[..i]), signature) {
        assert front[..i] == es[..i] && front[i] == es[i];
      }
      QuietFlightsAreCurrent(c, front, signature);
      RunIsTallied(c, front, signature);
      FlightStaysCurrent(c, Run(c, START, front), es[|es| - 1], Submits(front, signature), signature);
      MiscountsBefore(c, es, signature);
    }
  }

  // ---------- the stored proposals ----------

  /** Problem keys are digests of signatures; the digest is taken to be collision-free. */
  ghost predicate CollisionFree(digest: Signature -> string) {
    forall a, b | digest(a) == digest(b) :: a == b
  }

  /** Every emission is handled in turn, under the problem its signature names. */
  function Results(digest: Signature -> string, emitted: seq<Emission>): seq<Remediation.Event> {
    if emitted == [] then []
    else
      var last := emitted[|emitted| - 1];
      Results(digest, emitted[..|emitted| - 1])
      + [Remediation.Handled(
           Remediation.Result(digest(last.signature), last.occurrences, last.fromCache, "", last.findings),
           true, true)]
  }

  lemma {:induction false} ResultsReport(digest: Signature -> string, emitted: seq<Emission>, signature: Signature)
    requires CollisionFree(digest) && forall e | e in emitted :: e.occurrences > 0
    ensures var results, problem := Results(digest, emitted), digest(signature);
            && Remediation.DiskWorks(results, problem)
            && Remediation.Reported(results, problem) == Emitted(emitted, signature)
            && (Remediation.Inferences(results, problem) > 0 <==> Emitted(emitted, signature) > 0)
  {
    if emitted != [] {
      var front := emitted[..|emitted| - 1];
      ResultsReport(digest, front, signature);
      var results := Results(digest, emitted);
      assert results[..|results| - 1] == Results(digest, front);
    }
  }

  /**
    An error never analysed has no proposal; an analysed one's proposal counts exactly the times it was
    submitted, whatever was aggregated, shed, rejected, failed or served from the cache on the way, if
    and only if no analysis of it ever succeeded with an overtaken item.
   */
  lemma ProposalTotalIsExactExactlyWhen(c: Config, es: seq<Event>, digest: Signature -> string, signature: Signature)
    requires OneWindow(c, es, signature) && CollisionFree(digest)
    ensures var s := Run(c, START, es);
            var store, problem := Remediation.Run(Results(digest, s.emitted)).store, digest(signature);
            && (problem in store <==> signature in s.cache)
            && (problem in store ==> (store[problem].total == Submits(es, signature) <==> NeverMiscounts(c, es, signature)))
  {
    var s := Run(c, START, es);
    RunIsTallied(c, es, signature);
    EveryItemCounts(c, es);
    ResultsReport(digest, s.emitted, signature);
    Remediation.DocumentIsTheDigest(Results(digest, s.emitted), digest(signature));
    Remediation.EverythingIsRetained(Results(digest, s.emitted), digest(signature));
  }

  /** While no error recurs during its own analysis, no occurrence is lost or counted twice. */
  lemma ProposalsCountEveryOccurrence(c: Config, es: seq<Event>, digest: Signature -> string, signature: Signature)
    requires OneWindow(c, es, signature) && QuietDuringAnalysis(c, es, signature) && CollisionFree(digest)
    ensures var store, problem := Remediation.Run(Results(digest, Run(c, START, es).emitted)).store, digest(signature);
            problem in store ==> store[problem].total == Submits(es, signature)
  {
    QuietFlightsAreCurrent(c, es, signature);
    ProposalTotalIsExactExactlyWhen(c, es, digest, signature);
  }

  lemma {:induction false} ResultsAreStored(digest: Signature -> string, emitted: seq<Emission>, problem: string)
    requires forall e | e in emitted :: e.occurrences > 0
    ensures Remediation.DiskWorks(Results(digest, emitted), problem) && Remediation.SomethingNew(Results(digest, emitted), problem)
  {
    if emitted != [] {
      ResultsAreStored(digest, emitted[..|emitted| - 1], problem);
    }
  }

  /** Every record exported for what one analyzer run emits has an idempotency key of its own. */
  lemma EmissionsGetDistinctKeys(c: Config, es: seq<Event>, digest: Signature -> string)
    ensures Remediation.AllKeysDiffer(Remediation.Run(Results(digest, Run(c, START, es).emitted)).handouts)
  {
    var results := Results(digest, Run(c, START, es).emitted);
    EveryItemCounts(c, es);
    forall problem ensures Remediation.DiskWorks(results, problem) && Remediation.SomethingNew(results, problem) {
      ResultsAreStored(digest, Run(c, START, es).emitted, problem);
    }
    Remediation.NoKeyEverRepeats(results);
  }

  lemma RunOfOneMore(c: Config, s: State, es: seq<Event>, e: Event)
    ensures Run(c, s, es + [e]) == Step(c, Run(c, s, es), e)
  {
    assert (es + [e])[..|es|] == es;
  }

  /** Submitted, taken up, submitted again, answered, taken up again, answered again: all at one instant. */
  function Overlapping(signature: Signature, findings: Findings): seq<Event> {
    [Submitted(0.0, signature, 2)] + [Popped(0.0)] + [Submitted(0.0, signature, 2)]
    + [Finished(0.0, Some(findings))] + [Popped(0.0)] + [Finished(0.0, Some(findings))]
  }

  lemma OverlapUntilSecondSubmit(c: Config, signature: Signature)
    requires c.window >= 0.0
    ensures var s := Run(c, START, [Submitted(0.0, signature, 2)] + [Popped(0.0)] + [Submitted(0.0, signature, 2)]);
            && s.queue == [Item(2, 1, signature, 2)] && s.flight == Some(Item(2, 0, signature, 1))
            && s.emitted == [] && s.cache == map[]
  {
    var submit := Submitted(0.0, signature, 2);
    RunOfOneMore(c, START, [], submit);
    assert [] + [submit] == [submit];
    RunOfOneMore(c, START, [submit], Popped(0.0));
    RunOfOneMore(c, START, [submit] + [Popped(0.0)], submit);
    AllRecent([0.0], 0.0, c.window);
    var s1 := Step(c, START, submit);
    assert s1.queue == [Item(2, 0, signature, 1)] && Seen(s1.seen, signature) == [0.0];
    var s2 := Step(c, s1, Popped(0.0));
    assert s2.queue == [] && signature !in s2.pending && signature !in s2.cache;
    assert Forget(s2.cache, signature) == map[];
  }

  lemma OverlapEmits(c: Config, signature: Signature, findings: Findings)
    requires c.window >= 0.0
    ensures Run(c, START, Overlapping(signature, findings)).emitted
         == [Emission(signature, 1, false, findings), Emission(signature, 2, false, findings)]
  {
    var es3 := [Submitted(0.0, signature, 2)] + [Popped(0.0)] + [Submitted(0.0, signature, 2)];
    var finish := Finished(0.0, Some(findings));
    OverlapUntilSecondSubmit(c, signature);
    RunOfOneMore(c, START, es3, finish);
    RunOfOneMore(c, START, es3 + [finish], Popped(0.0));
    RunOfOneMore(c, START, es3 + [finish] + [Popped(0.0)], finish);
  }

  /** An error that recurs while it is being analysed is counted again by its second analysis. */
  lemma RecurrenceDuringAnalysisCountsTwice(c: Config, signature: Signature, findings: Findings)
    requires c.window >= 0.0 && c.cacheTtl >= 0.0
    ensures OneWindow(c, Overlapping(signature, findings), signature)
    ensures Submits(Overlapping(signature, findings), signature) == 2
    ensures Emitted(Run(c, START, Overlapping(signature, findings)).emitted, signature) == 3
  {
    OverlapEmits(c, signature, findings);
    SubmitsInOverlap(signature, findings);
    var first, second := Emission(signature, 1, false, findings), Emission(signature, 2, false, findings);
    EmittedOneMore([], first, signature);
    assert [] + [first] == [first];
    EmittedOneMore([first], second, signature);
    assert [first] + [second] == [first, second];
  }

  lemma SubmitsInOverlap(signature: Signature, findings: Findings)
    ensures Submits(Overlapping(signature, findings), signature) == 2
  {
    var es := Overlapping(signature, findings);
    assert Submits(es[..1], signature) == 1 by { assert es[..1][..0] == []; }
    assert es[..2][..1] == es[..1] && es[..3][..2] == es[..2] && es[..4][..3] == es[..3] && es[..5][..4] == es[..4];
    assert es[..6] == es && es[..6][..5] == es[..5];
    assert Submits(es[..2], signature) == 1;
    assert Submits(es[..3], signature) == 2;
    assert Submits(es[..4], signature) == 2;
    assert Submits(es[..5], signature) == 2;
  }
}
