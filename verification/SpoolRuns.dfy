/** Properties of the spool over every interleaving of producers, deliveries and purges. */
module SpoolRuns {
  import opened Basics
  import opened FileNames
  import opened Records
  import opened SpoolModel

  // ---------- the listing ----------

  ghost predicate Sorted(dir: seq<File>) {
    forall i, j | 0 <= i < j < |dir| :: Before(dir[i].name, dir[j].name)
  }

  function Names(dir: seq<File>): set<string> {
    set f | f in dir :: f.name
  }

  lemma FirstSortsFirst(dir: seq<File>)
    requires dir != [] && Sorted(dir)
    ensures dir == [dir[0]] + dir[1..] && Sorted(dir[1..])
    ensures forall g | g in dir[1..] :: Before(dir[0].name, g.name) && g.name != dir[0].name
  {
    forall g | g in dir[1..] ensures Before(dir[0].name, g.name) && g.name != dir[0].name {
      BeforeIsAsymmetric(dir[0].name, g.name);
    }
  }

  lemma NewFirstSortsFirst(f: File, dir: seq<File>)
    requires dir != [] && Sorted(dir) && Before(f.name, dir[0].name)
    ensures Sorted([f] + dir) && forall g | g in dir :: g.name != f.name
  {
    forall i | 0 <= i < |dir| ensures Before(f.name, dir[i].name) {
      if i > 0 {
        BeforeIsTransitive(f.name, dir[0].name, dir[i].name);
      }
    }
    forall g | g in dir ensures g.name != f.name {
      BeforeIsAsymmetric(f.name, g.name);
    }
  }

  lemma {:induction false} WriteKeepsOrder(dir: seq<File>, f: File)
    requires Sorted(dir)
    ensures Sorted(Write(dir, f))
    ensures forall g :: g in Write(dir, f) <==> g == f || (g in dir && g.name != f.name)
  {
    if dir != [] {
      var head, tail := dir[0], dir[1..];
      FirstSortsFirst(dir);
      if head.name == f.name {
      } else if Before(f.name, head.name) {
        NewFirstSortsFirst(f, dir);
      } else {
        BeforeIsTotal(head.name, f.name);
        WriteKeepsOrder(tail, f);
      }
    }
  }

  /** Writing adds an entry only where there was none of that name. */
  lemma {:induction false} WriteCounts(dir: seq<File>, f: File)
    requires Sorted(dir)
    ensures |Write(dir, f)| == |dir| + if f.name in Names(dir) then 0 else 1
  {
    if dir != [] {
      var head, tail := dir[0], dir[1..];
      assert dir == [head] + tail;
      assert f.name in Names(dir) <==> f.name == head.name || f.name in Names(tail);
      if Before(f.name, head.name) {
        BeforeIsIrreflexive(f.name);
        forall g | g in tail ensures g.name != f.name {
          BeforeIsTransitive(f.name, head.name, g.name);
          BeforeIsAsymmetric(f.name, g.name);
        }
      }
      WriteCounts(tail, f);
    }
  }

  lemma {:induction false} UnlinkKeepsOrder(dir: seq<File>, name: string)
    requires Sorted(dir)
    ensures Sorted(Unlink(dir, name))
    ensures forall g :: g in Unlink(dir, name) <==> g in dir && g.name != name
    ensures |Unlink(dir, name)| == |dir| - if name in Names(dir) then 1 else 0
  {
    if dir != [] {
      var head, tail := dir[0], dir[1..];
      assert dir == [head] + tail;
      UnlinkKeepsOrder(tail, name);
      forall g | g in tail ensures g.name != head.name {
        BeforeIsAsymmetric(head.name, g.name);
      }
      assert name in Names(dir) <==> name == head.name || name in Names(tail);
    }
  }

  lemma {:induction false} FreshKeepsOrder(c: Config, dir: seq<File>, now: real)
    requires Sorted(dir)
    ensures Sorted(Fresh(c, dir, now))
    ensures forall g :: g in Fresh(c, dir, now) <==> g in dir && !Expired(c, g.doc, now)
  {
    if dir != [] {
      assert dir == [dir[0]] + dir[1..];
      FreshKeepsOrder(c, dir[1..], now);
    }
  }

  // ---------- shedding ----------

  /** What survives is the longest suffix, in name order, that fits the ceiling. */
  ghost predicate LongestFit(maxBytes: int, dir: seq<File>, kept: seq<File>) {
    exists k :: 0 <= k <= |dir| && kept == dir[k..]
                && (kept == [] || Bytes(kept) <= maxBytes)
                && forall j | 0 <= j < k :: Bytes(dir[j..]) > maxBytes
  }

  lemma {:induction false} ShedIsLongestFit(maxBytes: int, dir: seq<File>)
    ensures LongestFit(maxBytes, dir, Shed(maxBytes, dir))
  {
    if dir == [] || Bytes(dir) <= maxBytes {
      assert Shed(maxBytes, dir) == dir[0..];
    } else {
      ShedIsLongestFit(maxBytes, dir[1..]);
      var k :| 0 <= k <= |dir[1..]| && Shed(maxBytes, dir[1..]) == dir[1..][k..]
               && (dir[1..][k..] == [] || Bytes(dir[1..][k..]) <= maxBytes)
               && forall j | 0 <= j < k :: Bytes(dir[1..][j..]) > maxBytes;
      assert Shed(maxBytes, dir) == dir[k + 1..];
      forall j | 0 <= j < k + 1 ensures Bytes(dir[j..]) > maxBytes {
        if j > 0 {
          assert dir[j..] == dir[1..][j - 1..];
        } else {
          assert dir[0..] == dir;
        }
      }
    }
  }

  lemma {:induction false} BytesOfOneMore(dir: seq<File>, f: File)
    ensures Bytes(dir + [f]) == Bytes(dir) + f.bytes
  {
    if dir == [] {
      assert [f] == dir + [f];
      assert Bytes([f]) == f.bytes + Bytes([f][1..]);
    } else {
      assert (dir + [f])[1..] == dir[1..] + [f];
      BytesOfOneMore(dir[1..], f);
    }
  }

  /** Shedding as records arrive loses nothing that shedding the whole history at once would keep. */
  lemma {:induction false} SheddingIsOnline(maxBytes: int, dir: seq<File>, f: File)
    ensures Shed(maxBytes, Shed(maxBytes, dir) + [f]) == Shed(maxBytes, dir + [f])
  {
    if dir == [] || Bytes(dir) <= maxBytes {
    } else {
      SheddingIsOnline(maxBytes, dir[1..], f);
      BytesOfOneMore(dir, f);
      assert (dir + [f])[1..] == dir[1..] + [f];
    }
  }

  lemma ShedKeepsOrder(maxBytes: int, dir: seq<File>)
    requires Sorted(dir)
    ensures Sorted(Shed(maxBytes, dir))
    ensures forall g | g in Shed(maxBytes, dir) :: g in dir
  {
    ShedIsLongestFit(maxBytes, dir);
  }

  lemma {:induction false} WriteAppends(dir: seq<File>, f: File)
    requires forall g | g in dir :: Before(g.name, f.name)
    ensures Write(dir, f) == dir + [f]
  {
    if dir != [] {
      BeforeIsAsymmetric(dir[0].name, f.name);
      WriteAppends(dir[1..], f);
      assert dir == [dir[0]] + dir[1..];
    }
  }

  // ---------- runs ----------

  /** What a producer handed in, under the name it was filed, and to which run of the service. */
  datatype Arrival = Arrival(process: nat, millis: nat, sequence: nat, sink: string, payload: Payload, at: real)

  /**
    The spool, the snapshot a delivery pass is working through, and a history:
    what arrived and which names were delivered; and, since the service last
    started, how many files it found, how many outcomes were recorded for a
    record whose file had gone meanwhile, and how many puts replaced a file.
   */
  datatype Line = Line(
    spool: State,
    flight: seq<Spooled>,
    arrivals: map<string, Arrival>,
    sent: seq<string>,
    process: nat,
    inherited: nat,
    phantoms: nat,
    overwritten: nat)

  /**
    A producer's `put` may come between any two steps of the delivery pass, and
    the service may restart between any two steps of anything.
   */
  datatype Event =
    | Submitted(now: real, sink: string, payload: Payload, bytes: nat, disk: Disk)
    | Listed(now: real)
    | Delivered(now: real)
    | Failed(now: real, jitter: real, bytes: nat, written: bool)
    | Purged(now: real)
    | Restarted(now: real)

  const IDLE := Line(EMPTY, [], map[], [], 0, 0, 0, 0)

  /** The event records an outcome for a record whose file was shed or purged since it was listed. */
  predicate OutcomeForGone(c: Config, l: Line, e: Event) {
    && l.flight != [] && l.flight[0].name !in Names(l.spool.dir)
    && (e.Delivered? || (e.Failed? && (e.written || Expired(c, l.flight[0].doc, e.now))))
  }

  predicate Puts(e: Event) {
    e.Submitted? && e.disk == Stored
  }

  /** The put takes the name of a file that is there. */
  predicate Overwrites(l: Line, e: Event) {
    Puts(e) && NewName(l.spool, e.sink, e.now) in Names(l.spool.dir)
  }

  function NewArrival(l: Line, sink: string, payload: Payload, now: real): Arrival {
    Arrival(l.process, Millis(now), l.spool.sequence + 1, sink, payload, now)
  }

  function Move(c: Config, l: Line, e: Event): Line {
    match e
    case Submitted(now, sink, payload, bytes, disk) =>
      var s := Put(c, l.spool, sink, payload, bytes, now, disk);
      if disk != Stored then l.(spool := s)
      else l.(spool := s, arrivals := l.arrivals[NewName(l.spool, sink, now) := NewArrival(l, sink, payload, now)])
    case Listed(now) => l.(flight := Due(l.spool.dir, now))
    case Delivered(now) =>
      if l.flight == [] then l
      else l.(spool := Succeed(l.spool, l.flight[0]), flight := l.flight[1..], sent := l.sent + [l.flight[0].name])
    case Failed(now, jitter, bytes, written) =>
      if l.flight == [] then l
      else l.(spool := Fail(c, l.spool, l.flight[0], now, jitter, bytes, written), flight := l.flight[1..])
    case Purged(now) => l.(spool := Purge(c, l.spool, now))
    case Restarted(_) =>
      l.(spool := EMPTY.(dir := l.spool.dir), flight := [], process := l.process + 1, inherited := |l.spool.dir|)
  }

  function Step(c: Config, l: Line, e: Event): Line {
    Move(c, l, e).(phantoms := if e.Restarted? then 0 else if OutcomeForGone(c, l, e) then l.phantoms + 1 else l.phantoms,
                   overwritten := if e.Restarted? then 0 else if Overwrites(l, e) then l.overwritten + 1 else l.overwritten)
  }

  function Run(c: Config, es: seq<Event>): Line {
    if es == [] then IDLE else Step(c, Run(c, es[..|es| - 1]), es[|es| - 1])
  }

  // ---------- names ----------

  /** An arrival is filed under the name `put` gave it. */
  ghost predicate NamedFor(name: string, a: Arrival) {
    name == NameOf(a.millis, a.sequence, a.sink)
  }

  /** Arrivals carry the names they were given, one for each sequence number of each run of the service. */
  ghost predicate FiledBy(arrivals: map<string, Arrival>, process: nat, sequence: nat) {
    && (forall n | n in arrivals ::
          && NamedFor(n, arrivals[n])
          && (arrivals[n].process < process || (arrivals[n].process == process && arrivals[n].sequence <= sequence)))
    && (forall m, n | m in arrivals && n in arrivals
                      && arrivals[m].process == arrivals[n].process && arrivals[m].sequence == arrivals[n].sequence :: m == n)
  }

  ghost predicate Filed(l: Line) {
    FiledBy(l.arrivals, l.process, l.spool.sequence)
  }

  lemma FilingOneMore(arrivals: map<string, Arrival>, process: nat, sequence: nat, name: string, a: Arrival)
    requires FiledBy(arrivals, process, sequence) && NamedFor(name, a) && a.process == process && a.sequence == sequence + 1
    ensures FiledBy(arrivals[name := a], process, sequence + 1)
  {
  }

  lemma StepKeepsFiled(c: Config, l: Line, e: Event)
    requires Filed(l)
    ensures Filed(Step(c, l, e))
  {
    if Puts(e) {
      FilingOneMore(l.arrivals, l.process, l.spool.sequence, NewName(l.spool, e.sink, e.now),
                    NewArrival(l, e.sink, e.payload, e.now));
    }
  }

  lemma {:induction false} RunIsFiled(c: Config, es: seq<Event>)
    ensures Filed(Run(c, es))
  {
    if es != [] {
      RunIsFiled(c, es[..|es| - 1]);
      StepKeepsFiled(c, Run(c, es[..|es| - 1]), es[|es| - 1]);
    }
  }

  /** The milliseconds of all puts, and of those before the last restart. */
  function MillisSeen(es: seq<Event>): set<nat> {
    if es == [] then {}
    else
      var before, e := MillisSeen(es[..|es| - 1]), es[|es| - 1];
      if Puts(e) then before + {Millis(e.now)} else before
  }

  function MillisBeforeRestart(es: seq<Event>): set<nat> {
    if es == [] then {}
    else if es[|es| - 1].Restarted? then MillisSeen(es[..|es| - 1])
    else MillisBeforeRestart(es[..|es| - 1])
  }

  /** No put falls in the same millisecond as a put before a restart. */
  predicate RestartsAdvance(es: seq<Event>) {
    es != [] ==>
      && RestartsAdvance(es[..|es| - 1])
      && (Puts(es[|es| - 1]) ==> Millis(es[|es| - 1].now) !in MillisBeforeRestart(es[..|es| - 1]))
  }

  predicate NoRestarts(es: seq<Event>) {
    forall i | 0 <= i < |es| :: !es[i].Restarted?
  }

  /** A run of one process always qualifies. */
  lemma {:induction false} OneProcessAdvances(es: seq<Event>)
    requires NoRestarts(es)
    ensures RestartsAdvance(es) && MillisBeforeRestart(es) == {}
  {
    if es != [] {
      OneProcessAdvances(es[..|es| - 1]);
    }
  }

  /** Arrivals date from the puts. */
  ghost predicate Dated(l: Line, es: seq<Event>) {
    forall n | n in l.arrivals ::
      l.arrivals[n].millis in MillisSeen(es)
      && (l.arrivals[n].process < l.process ==> l.arrivals[n].millis in MillisBeforeRestart(es))
  }

  lemma {:induction false} RunIsDated(c: Config, es: seq<Event>)
    ensures Dated(Run(c, es), es)
  {
    if es != [] {
      RunIsDated(c, es[..|es| - 1]);
    }
  }

  /** The event's put, if it is one, takes a name nothing was ever filed under. */
  predicate TakesUnusedName(l: Line, e: Event) {
    Puts(e) ==> NewName(l.spool, e.sink, e.now) !in l.arrivals
  }

  lemma NewNameIsUnused(l: Line, es: seq<Event>, e: Event)
    requires Filed(l) && Dated(l, es) && (Puts(e) ==> Millis(e.now) !in MillisBeforeRestart(es))
    ensures TakesUnusedName(l, e)
  {
    if Puts(e) && NewName(l.spool, e.sink, e.now) in l.arrivals {
      var a := l.arrivals[NewName(l.spool, e.sink, e.now)];
      NamesCollideExactlyWhen(a.millis, a.sequence, a.sink, Millis(e.now), l.spool.sequence + 1, e.sink);
    }
  }

  lemma NextNameIsUnused(c: Config, es: seq<Event>)
    requires es != [] && RestartsAdvance(es)
    ensures RestartsAdvance(es[..|es| - 1]) && TakesUnusedName(Run(c, es[..|es| - 1]), es[|es| - 1])
  {
    RunIsFiled(c, es[..|es| - 1]);
    RunIsDated(c, es[..|es| - 1]);
    NewNameIsUnused(Run(c, es[..|es| - 1]), es[..|es| - 1], es[|es| - 1]);
  }

  // ---------- what is in the directory ----------

  /** A document still says what its producer handed in, and when. */
  ghost predicate Genuine(arrivals: map<string, Arrival>, name: string, doc: Document) {
    && name in arrivals
    && doc.sink == arrivals[name].sink && doc.payload == arrivals[name].payload
    && doc.firstQueued == Some(arrivals[name].at)
  }

  ghost predicate Faithful(l: Line) {
    && (forall f | f in l.spool.dir :: Genuine(l.arrivals, f.name, f.doc))
    && (forall r | r in l.flight :: Genuine(l.arrivals, r.name, r.doc))
  }

  lemma {:induction false} DueComesFromDir(dir: seq<File>, now: real)
    requires Sorted(dir)
    ensures forall r | r in Due(dir, now) ::
              now >= r.doc.nextAttempt && exists f | f in dir :: f.name == r.name && f.doc == r.doc
    ensures forall i, j | 0 <= i < j < |Due(dir, now)| :: Before(Due(dir, now)[i].name, Due(dir, now)[j].name)
  {
    if dir != [] {
      var rest := Due(dir[1..], now);
      assert dir == [dir[0]] + dir[1..];
      DueComesFromDir(dir[1..], now);
      forall r | r in Due(dir, now)
        ensures now >= r.doc.nextAttempt && exists f | f in dir :: f.name == r.name && f.doc == r.doc
      {
        if r in rest {
          var f :| f in dir[1..] && f.name == r.name && f.doc == r.doc;
          assert f in dir;
        } else {
          assert dir[0] in dir && dir[0].name == r.name && dir[0].doc == r.doc;
        }
      }
      forall r | r in rest ensures Before(dir[0].name, r.name) {
        var f :| f in dir[1..] && f.name == r.name && f.doc == r.doc;
      }
    }
  }

  /** A put adds its record to the listing, in place of one of that name, and shedding only takes away. */
  lemma PutLists(c: Config, l: Line, e: Event)
    requires Sorted(l.spool.dir) && Puts(e)
    ensures var f := NewFile(l.spool, e.sink, e.payload, e.bytes, e.now); var dir := Step(c, l, e).spool.dir;
            && Sorted(dir) && (forall g | g in dir :: g == f || (g in l.spool.dir && g.name != f.name))
            && |Write(l.spool.dir, f)| == |l.spool.dir| + if Overwrites(l, e) then 0 else 1
  {
    var f := NewFile(l.spool, e.sink, e.payload, e.bytes, e.now);
    WriteKeepsOrder(l.spool.dir, f);
    WriteCounts(l.spool.dir, f);
    ShedKeepsOrder(c.maxBytes, Write(l.spool.dir, f));
  }

  lemma StepKeepsSorted(c: Config, l: Line, e: Event)
    requires Sorted(l.spool.dir)
    ensures Sorted(Step(c, l, e).spool.dir)
  {
    if Puts(e) {
      PutLists(c, l, e);
    } else if e.Purged? {
      FreshKeepsOrder(c, l.spool.dir, e.now);
    } else if l.flight != [] {
      UnlinkKeepsOrder(l.spool.dir, l.flight[0].name);
      if e.Failed? {
        WriteKeepsOrder(l.spool.dir, File(l.flight[0].name, Retry(c, l.flight[0].doc, e.now, e.jitter), e.bytes));
      }
    }
  }

  lemma {:induction false} RunIsSorted(c: Config, es: seq<Event>)
    ensures Sorted(Run(c, es).spool.dir)
  {
    if es != [] {
      RunIsSorted(c, es[..|es| - 1]);
      StepKeepsSorted(c, Run(c, es[..|es| - 1]), es[|es| - 1]);
    }
  }

  lemma PutIsFaithful(c: Config, l: Line, e: Event)
    requires Sorted(l.spool.dir) && Faithful(l) && Puts(e) && TakesUnusedName(l, e)
    ensures Faithful(Step(c, l, e))
  {
    PutLists(c, l, e);
    var l' := Step(c, l, e);
    forall g | g in l'.spool.dir ensures Genuine(l'.arrivals, g.name, g.doc) {
      assert g in l.spool.dir || g == NewFile(l.spool, e.sink, e.payload, e.bytes, e.now);
    }
  }

  lemma StepIsFaithful(c: Config, l: Line, e: Event)
    requires Sorted(l.spool.dir) && Faithful(l) && TakesUnusedName(l, e)
    ensures Faithful(Step(c, l, e))
  {
    match e
    case Submitted(_, _, _, _, disk) =>
      if disk == Stored {
        PutIsFaithful(c, l, e);
      }
    case Listed(now) => DueComesFromDir(l.spool.dir, now);
    case Delivered(_) =>
      if l.flight != [] {
        UnlinkKeepsOrder(l.spool.dir, l.flight[0].name);
      }
    case Failed(now, jitter, bytes, written) =>
      if l.flight != [] {
        var r := l.flight[0];
        UnlinkKeepsOrder(l.spool.dir, r.name);
        WriteKeepsOrder(l.spool.dir, File(r.name, Retry(c, r.doc, now, jitter), bytes));
      }
    case Purged(now) => FreshKeepsOrder(c, l.spool.dir, now);
    case Restarted(_) =>
  }

  /** However often its delivery failed and the service restarted, a record is as it was handed in. */
  lemma {:induction false} RunIsFaithful(c: Config, es: seq<Event>)
    requires RestartsAdvance(es)
    ensures Faithful(Run(c, es))
  {
    if es != [] {
      NextNameIsUnused(c, es);
      RunIsSorted(c, es[..|es| - 1]);
      RunIsFaithful(c, es[..|es| - 1]);
      StepIsFaithful(c, Run(c, es[..|es| - 1]), es[|es| - 1]);
    }
  }

  // ---------- conservation ----------

  /** Every record found or queued is on disk, delivered, dropped, expired or replaced, up to the phantoms. */
  ghost predicate Balanced(l: Line) {
    |l.spool.dir| + l.spool.delivered + l.spool.dropped + l.spool.expired + l.overwritten
    == l.inherited + l.spool.queued + l.phantoms
  }

  lemma StepIsBalanced(c: Config, l: Line, e: Event)
    requires Sorted(l.spool.dir) && Balanced(l)
    ensures Balanced(Step(c, l, e))
  {
    if e.Submitted? {
      if e.disk == Stored {
        PutLists(c, l, e);
      }
    } else if l.flight != [] {
      var r := l.flight[0];
      UnlinkKeepsOrder(l.spool.dir, r.name);
      if e.Failed? {
        WriteCounts(l.spool.dir, File(r.name, Retry(c, r.doc, e.now, e.jitter), e.bytes));
      }
    }
  }

  /**
    No record is lost unaccounted for, whatever the clock does, however long the run and however often
    the service restarts. The books balance, except that an outcome for a record gone meanwhile counts
    it a second time, and that a put after a restart may replace a file.
   */
  lemma {:induction false} NothingIsLostSilently(c: Config, es: seq<Event>)
    ensures Balanced(Run(c, es))
  {
    if es != [] {
      RunIsSorted(c, es[..|es| - 1]);
      NothingIsLostSilently(c, es[..|es| - 1]);
      StepIsBalanced(c, Run(c, es[..|es| - 1]), es[|es| - 1]);
    }
  }

  /** Since the last restart, no outcome was recorded for a record gone meanwhile. */
  predicate NoneGoneInFlight(c: Config, es: seq<Event>) {
    es == [] || es[|es| - 1].Restarted?
    || (NoneGoneInFlight(c, es[..|es| - 1]) && !OutcomeForGone(c, Run(c, es[..|es| - 1]), es[|es| - 1]))
  }

  lemma {:induction false} PhantomsExactlyWhen(c: Config, es: seq<Event>)
    ensures Run(c, es).phantoms == 0 <==> NoneGoneInFlight(c, es)
  {
    if es != [] {
      PhantomsExactlyWhen(c, es[..|es| - 1]);
    }
  }

  /** A put never replaces a file while no millisecond is shared across a restart. */
  lemma {:induction false} NothingIsOverwritten(c: Config, es: seq<Event>)
    requires RestartsAdvance(es)
    ensures Run(c, es).overwritten == 0
  {
    if es != [] {
      var front := es[..|es| - 1];
      NextNameIsUnused(c, es);
      NothingIsOverwritten(c, front);
      RunIsFaithful(c, front);
    }
  }

  /** Since the last restart, no put replaced a file. */
  predicate NoneOverwritten(c: Config, es: seq<Event>) {
    es == [] || es[|es| - 1].Restarted?
    || (NoneOverwritten(c, es[..|es| - 1]) && !Overwrites(Run(c, es[..|es| - 1]), es[|es| - 1]))
  }

  lemma {:induction false} OverwrittenExactlyWhen(c: Config, es: seq<Event>)
    ensures Run(c, es).overwritten == 0 <==> NoneOverwritten(c, es)
  {
    if es != [] {
      OverwrittenExactlyWhen(c, es[..|es| - 1]);
    }
  }

  /**
    Found + queued = on disk + delivered + dropped + expired, exactly when as many outcomes were
    recorded for records gone meanwhile as puts replaced a file. While no millisecond is shared across
    a restart: exactly when no such outcome was recorded.
   */
  lemma BooksBalanceExactlyWhen(c: Config, es: seq<Event>)
    ensures var l := Run(c, es); var s := l.spool;
            var balanced := l.inherited + s.queued == |s.dir| + s.delivered + s.dropped + s.expired;
            && (balanced <==> l.phantoms == l.overwritten)
            && (l.phantoms == 0 <==> NoneGoneInFlight(c, es)) && (l.overwritten == 0 <==> NoneOverwritten(c, es))
            && (RestartsAdvance(es) ==> NoneOverwritten(c, es) && (balanced <==> NoneGoneInFlight(c, es)))
  {
    NothingIsLostSilently(c, es);
    PhantomsExactlyWhen(c, es);
    OverwrittenExactlyWhen(c, es);
    if RestartsAdvance(es) {
      NothingIsOverwritten(c, es);
    }
  }

  /** The failing case for a shared millisecond: put, restart, put again, and the first record is gone without a count. */
  lemma RestartMayReuseAName(c: Config, sink: string, payload: Payload)
    requires c.maxBytes == 10
    ensures var put := Submitted(0.0, sink, payload, 10, Stored);
            var l := Run(c, [put] + [Restarted(0.0)] + [put]);
            && l.inherited == 1 && l.overwritten == 1 && |l.spool.dir| == 1
            && l.spool.queued == 1 && l.spool.delivered == 0 && l.spool.dropped == 0 && l.spool.expired == 0
  {
    var put, f := Submitted(0.0, sink, payload, 10, Stored), NewFile(EMPTY, sink, payload, 10, 0.0);
    assert [f][1..] == [] && Bytes([f]) == 10;
    assert Write([], f) == [f] && Write([f], f) == [f] && Shed(10, [f]) == [f];
    RunOfOneMore(c, [], put);
    assert [] + [put] == [put];
    RunOfOneMore(c, [put], Restarted(0.0));
    RunOfOneMore(c, [put] + [Restarted(0.0)], put);
    var l := Run(c, [put] + [Restarted(0.0)]);
    assert l.spool == EMPTY.(dir := [f]);
    assert f in l.spool.dir && f.name == NewName(l.spool, sink, 0.0);
  }

  /** Two records of ten bytes, put at the same instant. */
  lemma TwoFiles(sink: string, payload: Payload, f1: File, f2: File)
    requires f1 == NewFile(EMPTY, sink, payload, 10, 0.0) && f2 == NewFile(EMPTY.(sequence := 1), sink, payload, 10, 0.0)
    ensures Write([], f1) == [f1] && Write([f1], f2) == [f1, f2] && Unlink([f2], f1.name) == [f2]
    ensures Shed(10, [f1]) == [f1] && Shed(10, [f1, f2]) == [f2] && Due([f1], 0.0) == [Spooled(f1.name, f1.doc)]
    ensures f1.name != f2.name
  {
    assert Pow10(6) == 1000000 && Pow10(13) == 10000000000000;
    NamesFollowArrival(0, 1, sink, 0, 2, sink);
    BeforeIsAsymmetric(f1.name, f2.name);
    WriteAppends([f1], f2);
    assert [f1][1..] == [] && [f2][1..] == [] && [f1, f2][1..] == [f2];
    assert Bytes([f1]) == 10 && Bytes([f2]) == 10 && Bytes([f1, f2]) == 20;
  }

  lemma AfterSecondPut(c: Config, sink: string, payload: Payload, f1: File, f2: File)
    requires c.maxBytes == 10
    requires f1 == NewFile(EMPTY, sink, payload, 10, 0.0) && f2 == NewFile(EMPTY.(sequence := 1), sink, payload, 10, 0.0)
    ensures var put := Submitted(0.0, sink, payload, 10, Stored);
            var l := Step(c, Step(c, Step(c, IDLE, put), Listed(0.0)), put);
            && l.spool == State([f2], 2, 2, 0, 1, 0) && l.flight == [Spooled(f1.name, f1.doc)]
  {
    var put := Submitted(0.0, sink, payload, 10, Stored);
    TwoFiles(sink, payload, f1, f2);
    var l1 := Step(c, IDLE, put);
    assert l1.spool == State([f1], 1, 1, 0, 0, 0);
    assert NewFile(l1.spool, sink, payload, 10, 0.0) == f2;
  }

  /** The failing case: a record shed by a second one while its delivery is under way counts as dropped and as delivered. */
  lemma ShedInFlightCountsTwice(c: Config, sink: string, payload: Payload)
    requires c.maxBytes == 10
    ensures var put := Submitted(0.0, sink, payload, 10, Stored);
            var s := Run(c, [put] + [Listed(0.0)] + [put] + [Delivered(0.0)]).spool;
            s.queued == 2 && |s.dir| == 1 && s.dropped == 1 && s.delivered == 1 && s.expired == 0
  {
    var put := Submitted(0.0, sink, payload, 10, Stored);
    var f1, f2 := NewFile(EMPTY, sink, payload, 10, 0.0), NewFile(EMPTY.(sequence := 1), sink, payload, 10, 0.0);
    RunOfOneMore(c, [], put);
    assert [] + [put] == [put];
    RunOfOneMore(c, [put], Listed(0.0));
    RunOfOneMore(c, [put] + [Listed(0.0)], put);
    RunOfOneMore(c, [put] + [Listed(0.0)] + [put], Delivered(0.0));
    AfterSecondPut(c, sink, payload, f1, f2);
    TwoFiles(sink, payload, f1, f2);
  }

  /** A record put and listed at time zero, failed, and due again a second later. */
  lemma FailedAndDueAgain(c: Config, sink: string, payload: Payload)
    requires c == Config(100, 100.0, 2.0)
    ensures var l2 := Step(c, Step(c, IDLE, Submitted(0.0, sink, payload, 10, Stored)), Listed(0.0));
            var l4 := Step(c, Step(c, l2, Failed(0.0, 0.0, 10, true)), Listed(1.0));
            && |l2.flight| == 1 && l2.flight[0].doc.sink == sink && l2.flight[0].doc.payload == payload
            && |l4.flight| == 1 && l4.flight[0].doc.sink == sink && l4.flight[0].doc.payload == payload
            && l4.flight[0].name == l2.flight[0].name
  {
    var f := NewFile(EMPTY, sink, payload, 10, 0.0);
    assert [f][1..] == [] && Bytes([f]) == 10;
    assert Write([], f) == [f] && Shed(100, [f]) == [f] && Due([f], 0.0) == [Spooled(f.name, f.doc)];
    var l2 := Step(c, Step(c, IDLE, Submitted(0.0, sink, payload, 10, Stored)), Listed(0.0));
    assert l2.spool.dir == [f] && l2.flight == [Spooled(f.name, f.doc)];
    var g := File(f.name, Retry(c, f.doc, 0.0, 0.0), 10);
    assert Pow2(0) == 1 && g.doc.nextAttempt == 1.0;
    assert Write([f], g) == [g] && [g][1..] == [] && Due([g], 1.0) == [Spooled(g.name, g.doc)];
    var l3 := Step(c, l2, Failed(0.0, 0.0, 10, true));
    assert l3.spool.dir == [g];
  }

  lemma RunOfOneMore(c: Config, es: seq<Event>, e: Event)
    ensures Run(c, es + [e]) == Step(c, Run(c, es), e)
  {
    assert (es + [e])[..|es|] == es;
  }

  // ---------- at most one delivery ----------

  ghost predicate Distinct(names: seq<string>) {
    forall i, j | 0 <= i < j < |names| :: names[i] != names[j]
  }

  /** Records still to be settled are distinct and none has been delivered. */
  ghost predicate Settled(l: Line) {
    && Distinct(l.sent)
    && (forall i, j | 0 <= i < j < |l.flight| :: l.flight[i].name != l.flight[j].name)
    && (forall n | n in l.sent :: n in l.arrivals)
    && (forall n, f | n in l.sent && f in l.spool.dir :: f.name != n)
    && (forall n, r | n in l.sent && r in l.flight :: r.name != n)
  }

  lemma PutIsSettled(c: Config, l: Line, e: Event)
    requires Sorted(l.spool.dir) && Faithful(l) && Settled(l) && Puts(e) && TakesUnusedName(l, e)
    ensures Settled(Step(c, l, e))
  {
    PutLists(c, l, e);
    forall n, g | n in l.sent && g in Step(c, l, e).spool.dir ensures g.name != n {
      assert g in l.spool.dir || g == NewFile(l.spool, e.sink, e.payload, e.bytes, e.now);
    }
  }

  lemma ListingIsSettled(c: Config, l: Line, now: real)
    requires Sorted(l.spool.dir) && Settled(l)
    ensures Settled(Step(c, l, Listed(now)))
  {
    DueComesFromDir(l.spool.dir, now);
    var due := Due(l.spool.dir, now);
    forall i, j | 0 <= i < j < |due| ensures due[i].name != due[j].name {
      BeforeIsAsymmetric(due[i].name, due[j].name);
    }
  }

  lemma DeliveryIsSettled(c: Config, l: Line, now: real)
    requires Sorted(l.spool.dir) && Faithful(l) && Settled(l) && l.flight != []
    ensures Settled(Step(c, l, Delivered(now)))
  {
    UnlinkKeepsOrder(l.spool.dir, l.flight[0].name);
    assert l.flight[0] in l.flight;
    forall i | 0 <= i < |l.sent| ensures l.sent[i] != l.flight[0].name {
      assert l.sent[i] in l.sent;
    }
  }

  lemma FailureIsSettled(c: Config, l: Line, e: Event)
    requires Sorted(l.spool.dir) && Settled(l) && l.flight != [] && e.Failed?
    ensures Settled(Step(c, l, e))
  {
    var r := l.flight[0];
    UnlinkKeepsOrder(l.spool.dir, r.name);
    WriteKeepsOrder(l.spool.dir, File(r.name, Retry(c, r.doc, e.now, e.jitter), e.bytes));
    assert r in l.flight;
  }

  lemma StepIsSettled(c: Config, l: Line, e: Event)
    requires Sorted(l.spool.dir) && Faithful(l) && Settled(l) && TakesUnusedName(l, e)
    ensures Settled(Step(c, l, e))
  {
    match e
    case Submitted(_, _, _, _, disk) =>
      if disk == Stored {
        PutIsSettled(c, l, e);
      }
    case Listed(now) => ListingIsSettled(c, l, now);
    case Delivered(now) =>
      if l.flight != [] {
        DeliveryIsSettled(c, l, now);
      }
    case Failed(_, _, _, _) =>
      if l.flight != [] {
        FailureIsSettled(c, l, e);
      }
    case Purged(now) => FreshKeepsOrder(c, l.spool.dir, now);
    case Restarted(_) =>
  }

  /** Of all the attempts made for one record, at most one succeeds; after it the record never returns. */
  lemma {:induction false} DeliveredOnce(c: Config, es: seq<Event>)
    requires RestartsAdvance(es)
    ensures Settled(Run(c, es))
  {
    if es != [] {
      var front := es[..|es| - 1];
      NextNameIsUnused(c, es);
      RunIsSorted(c, front);
      RunIsFaithful(c, front);
      DeliveredOnce(c, front);
      StepIsSettled(c, Run(c, front), es[|es| - 1]);
    }
  }
}
