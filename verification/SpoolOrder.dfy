/** Where the listing is in order of arrival, and what follows from that. */
module SpoolOrder {
  import opened Basics
  import opened FileNames
  import opened Records
  import opened SpoolModel
  import opened SpoolRuns

  const CLOCK_END := 10000000000.0
  const MAX_PUTS := 1000000

  /** How many names the running process has taken: puts that found or made their directory. */
  function NamesTaken(es: seq<Event>): nat {
    if es == [] || es[|es| - 1].Restarted? then 0
    else
      var before, e := NamesTaken(es[..|es| - 1]), es[|es| - 1];
      if e.Submitted? && e.disk != NoDirectory then before + 1 else before
  }

  ghost predicate Monotone(es: seq<Event>) {
    forall i, j | 0 <= i < j < |es| :: es[i].now <= es[j].now
  }

  /** No process takes a millionth name. */
  predicate NumbersFit(es: seq<Event>) {
    NamesTaken(es) < MAX_PUTS && (es != [] ==> NumbersFit(es[..|es| - 1]))
  }

  /** A clock that never runs backwards, and times and numbers that fit the widths of the names. */
  ghost predicate NamesFit(es: seq<Event>) {
    && Monotone(es) && (forall i | 0 <= i < |es| :: 0.0 <= es[i].now < CLOCK_END)
    && NumbersFit(es) && RestartsAdvance(es)
  }

  function Clock(es: seq<Event>): real {
    if es == [] then 0.0 else es[|es| - 1].now
  }

  lemma NamesFitBefore(es: seq<Event>)
    requires es != [] && NamesFit(es)
    ensures NamesFit(es[..|es| - 1]) && 0.0 <= Clock(es[..|es| - 1]) <= Clock(es) < CLOCK_END
  {
  }

  lemma MillisFit(t: real, now: real)
    requires 0.0 <= t <= now < CLOCK_END
    ensures Millis(t) <= Millis(now) < Pow10(MILLIS_WIDTH)
  {
    assert Pow10(13) == 10000000000000;
  }

  /** One arrival came before another: to an earlier process, or to the same one under a smaller number. */
  predicate Earlier(a: Arrival, b: Arrival) {
    a.process < b.process || (a.process == b.process && a.sequence < b.sequence)
  }

  ghost predicate NoneLater(arrivals: map<string, Arrival>, t: real) {
    forall n | n in arrivals :: arrivals[n].millis <= Millis(t)
  }

  /** Names sort by arrival, and none is from the future. */
  ghost predicate InOrder(arrivals: map<string, Arrival>, t: real) {
    && NoneLater(arrivals, t)
    && (forall m, n | m in arrivals && n in arrivals && Earlier(arrivals[m], arrivals[n]) :: Before(m, n))
  }

  lemma NewNameIsLast(l: Line, t: real, es: seq<Event>, sink: string, now: real)
    requires Filed(l) && Dated(l, es) && NoneLater(l.arrivals, t)
    requires Millis(now) !in MillisBeforeRestart(es)
    requires 0.0 <= t <= now < CLOCK_END && l.spool.sequence + 1 < MAX_PUTS
    ensures forall n | n in l.arrivals :: Before(n, NewName(l.spool, sink, now))
  {
    MillisFit(t, now);
    AllSortFirst(l, es, Millis(now), sink);
  }

  lemma AllSortFirst(l: Line, es: seq<Event>, millis: nat, sink: string)
    requires Filed(l) && Dated(l, es) && millis !in MillisBeforeRestart(es)
    requires millis < Pow10(MILLIS_WIDTH) && l.spool.sequence + 1 < MAX_PUTS
    requires forall n | n in l.arrivals :: l.arrivals[n].millis <= millis
    ensures forall n | n in l.arrivals :: Before(n, NameOf(millis, l.spool.sequence + 1, sink))
  {
    forall n | n in l.arrivals ensures Before(n, NameOf(millis, l.spool.sequence + 1, sink)) {
      EarlierOrFewer(l, es, n, millis);
      ArrivalSortsFirst(l.arrivals[n], millis, l.spool.sequence + 1, sink);
    }
  }

  lemma EarlierOrFewer(l: Line, es: seq<Event>, n: string, millis: nat)
    requires Filed(l) && Dated(l, es) && millis !in MillisBeforeRestart(es)
    requires n in l.arrivals && l.arrivals[n].millis <= millis
    ensures NamedFor(n, l.arrivals[n])
    ensures l.arrivals[n].millis < millis || l.arrivals[n].sequence <= l.spool.sequence
  {
  }

  lemma ArrivalSortsFirst(a: Arrival, millis: nat, sequence: nat, sink: string)
    requires a.millis <= millis < Pow10(MILLIS_WIDTH) && sequence < MAX_PUTS
    requires a.millis < millis || a.sequence < sequence
    ensures Before(NameOf(a.millis, a.sequence, a.sink), NameOf(millis, sequence, sink))
  {
    assert Pow10(6) == MAX_PUTS;
    NamesFollowArrival(a.millis, a.sequence, a.sink, millis, sequence, sink);
  }

  lemma OneMoreInOrder(arrivals: map<string, Arrival>, process: nat, sequence: nat, t: real, name: string, a: Arrival, t': real)
    requires FiledBy(arrivals, process, sequence) && InOrder(arrivals, t) && a.process == process && a.sequence == sequence + 1
    requires a.millis == Millis(t') && Millis(t) <= Millis(t') && forall n | n in arrivals :: Before(n, name)
    ensures InOrder(arrivals[name := a], t')
  {
  }

  lemma StepKeepsOrder(c: Config, l: Line, es: seq<Event>, e: Event, t: real)
    requires Filed(l) && Dated(l, es) && InOrder(l.arrivals, t) && 0.0 <= t <= e.now < CLOCK_END
    requires Puts(e) ==> l.spool.sequence + 1 < MAX_PUTS && Millis(e.now) !in MillisBeforeRestart(es)
    ensures InOrder(Step(c, l, e).arrivals, e.now)
  {
    ArrivalsAfter(c, l, e);
    if Puts(e) {
      PutKeepsOrder(l, es, e, t);
    } else {
      LaterKeepsOrder(l.arrivals, t, e.now);
    }
  }

  lemma ArrivalsAfter(c: Config, l: Line, e: Event)
    ensures !Puts(e) ==> Step(c, l, e).arrivals == l.arrivals
    ensures Puts(e) ==>
              Step(c, l, e).arrivals == l.arrivals[NewName(l.spool, e.sink, e.now) := NewArrival(l, e.sink, e.payload, e.now)]
  {
  }

  lemma LaterKeepsOrder(arrivals: map<string, Arrival>, t: real, t': real)
    requires InOrder(arrivals, t) && 0.0 <= t <= t' < CLOCK_END
    ensures InOrder(arrivals, t')
  {
    MillisFit(t, t');
  }

  lemma PutKeepsOrder(l: Line, es: seq<Event>, e: Event, t: real)
    requires Filed(l) && Dated(l, es) && InOrder(l.arrivals, t) && 0.0 <= t <= e.now < CLOCK_END
    requires Puts(e) && l.spool.sequence + 1 < MAX_PUTS && Millis(e.now) !in MillisBeforeRestart(es)
    ensures InOrder(l.arrivals[NewName(l.spool, e.sink, e.now) := NewArrival(l, e.sink, e.payload, e.now)], e.now)
  {
    MillisFit(t, e.now);
    NewNameIsLast(l, t, es, e.sink, e.now);
    OneMoreInOrder(l.arrivals, l.process, l.spool.sequence, t, NewName(l.spool, e.sink, e.now),
                   NewArrival(l, e.sink, e.payload, e.now), e.now);
  }

  lemma {:induction false} SequenceCountsNames(c: Config, es: seq<Event>)
    ensures Run(c, es).spool.sequence == NamesTaken(es)
  {
    if es != [] {
      SequenceCountsNames(c, es[..|es| - 1]);
    }
  }

  lemma {:induction false} RunIsInOrder(c: Config, es: seq<Event>)
    requires NamesFit(es)
    ensures InOrder(Run(c, es).arrivals, Clock(es))
  {
    if es != [] {
      var front := es[..|es| - 1];
      NamesFitBefore(es);
      RunIsFiled(c, front);
      RunIsDated(c, front);
      RunIsInOrder(c, front);
      SequenceCountsNames(c, front);
      StepKeepsOrder(c, Run(c, front), front, es[|es| - 1], Clock(front));
    }
  }

  /** The listing is in order of arrival, across restarts too. */
  lemma PendingIsOldestFirst(c: Config, es: seq<Event>)
    requires NamesFit(es)
    ensures var l := Run(c, es);
            && (forall f | f in l.spool.dir :: Genuine(l.arrivals, f.name, f.doc))
            && (forall i, j | 0 <= i < j < |l.spool.dir| ::
                  Earlier(l.arrivals[l.spool.dir[i].name], l.arrivals[l.spool.dir[j].name]))
  {
    RunIsFiled(c, es);
    RunIsSorted(c, es);
    RunIsInOrder(c, es);
    RunIsFaithful(c, es);
    var l := Run(c, es);
    forall i, j | 0 <= i < j < |l.spool.dir|
      ensures Earlier(l.arrivals[l.spool.dir[i].name], l.arrivals[l.spool.dir[j].name])
    {
      BeforeIsAsymmetric(l.spool.dir[i].name, l.spool.dir[j].name);
    }
  }

  // ---------- put-only history ----------

  predicate PutsOnly(es: seq<Event>) {
    forall i | 0 <= i < |es| :: es[i].Submitted?
  }

  /** The file an event stores, under the given sequence number. */
  function FileOf(e: Event, sequence: nat): File
    requires e.Submitted?
  {
    NewFile(EMPTY.(sequence := sequence), e.sink, e.payload, e.bytes, e.now)
  }

  /** Every file ever stored, in order of arrival, as if nothing were ever shed. */
  function Filings(es: seq<Event>): seq<File> {
    if es == [] then []
    else
      var before, e := Filings(es[..|es| - 1]), es[|es| - 1];
      if e.Submitted? && e.disk == Stored then before + [FileOf(e, NamesTaken(es[..|es| - 1]))] else before
  }

  /** The spool holds what shedding all of `history` at once would leave. */
  predicate ShedFrom(c: Config, s: State, history: seq<File>, sequence: nat) {
    s.dir == Shed(c.maxBytes, history) && s.sequence == sequence && s.dropped == |history| - |s.dir|
  }

  lemma PutSheds(c: Config, l: Line, es: seq<Event>, e: Event, t: real, history: seq<File>)
    requires Filed(l) && Dated(l, es) && InOrder(l.arrivals, t) && Faithful(l) && Puts(e)
    requires Millis(e.now) !in MillisBeforeRestart(es)
    requires 0.0 <= t <= e.now < CLOCK_END && l.spool.sequence + 1 < MAX_PUTS
    requires ShedFrom(c, l.spool, history, l.spool.sequence)
    ensures ShedFrom(c, Step(c, l, e).spool, history + [FileOf(e, l.spool.sequence)], l.spool.sequence + 1)
  {
    var f := FileOf(e, l.spool.sequence);
    assert f == NewFile(l.spool, e.sink, e.payload, e.bytes, e.now);
    NewNameIsLast(l, t, es, e.sink, e.now);
    WriteAppends(l.spool.dir, f);
    SheddingIsOnline(c.maxBytes, history, f);
  }

  lemma FailedPutShedsNothing(c: Config, l: Line, e: Event, history: seq<File>)
    requires e.Submitted? && e.disk != Stored && ShedFrom(c, l.spool, history, l.spool.sequence)
    ensures ShedFrom(c, Step(c, l, e).spool, history, l.spool.sequence + if e.disk == NoWrite then 1 else 0)
  {
  }

  lemma {:induction false} SheddingFollowsHistory(c: Config, es: seq<Event>)
    requires NamesFit(es) && PutsOnly(es)
    ensures ShedFrom(c, Run(c, es).spool, Filings(es), NamesTaken(es))
  {
    if es != [] {
      var front := es[..|es| - 1];
      NamesFitBefore(es);
      RunIsFiled(c, front);
      RunIsDated(c, front);
      RunIsInOrder(c, front);
      RunIsFaithful(c, front);
      SheddingFollowsHistory(c, front);
      if es[|es| - 1].disk == Stored {
        PutSheds(c, Run(c, front), front, es[|es| - 1], Clock(front), Filings(front));
      } else {
        FailedPutShedsNothing(c, Run(c, front), es[|es| - 1], Filings(front));
      }
    }
  }

  /** Shedding put by put leaves the longest fitting suffix of everything ever put. */
  lemma SurvivorsAreLongestFit(c: Config, es: seq<Event>)
    requires NamesFit(es) && PutsOnly(es)
    ensures LongestFit(c.maxBytes, Filings(es), Run(c, es).spool.dir)
    ensures Run(c, es).spool.dropped == |Filings(es)| - |Run(c, es).spool.dir|
  {
    SheddingFollowsHistory(c, es);
    ShedIsLongestFit(c.maxBytes, Filings(es));
  }
}
