/** What becomes of each record: when it is due, when it leaves the directory, and what a failure writes. */
module SpoolFates {
  import opened Basics
  import opened FileNames
  import opened Records
  import opened SpoolModel
  import opened SpoolRuns
  import SpoolBackoff

  // ---------- what is due ----------

  predicate Holds(dir: seq<File>, name: string, doc: Document) {
    exists f | f in dir :: f.name == name && f.doc == doc
  }

  lemma HoldsInRest(dir: seq<File>, name: string, doc: Document)
    requires dir != []
    ensures Holds(dir, name, doc) <==> (dir[0].name == name && dir[0].doc == doc) || Holds(dir[1..], name, doc)
  {
    assert dir == [dir[0]] + dir[1..];
    assert dir[0] in dir;
    if Holds(dir[1..], name, doc) {
      var f :| f in dir[1..] && f.name == name && f.doc == doc;
      assert f in dir;
    }
  }

  /** A record is due exactly when its file says so, whatever stands before it in the listing. */
  lemma {:induction false} DueExactlyWhen(dir: seq<File>, now: real, r: Spooled)
    ensures r in Due(dir, now) <==> Holds(dir, r.name, r.doc) && r.doc.nextAttempt <= now
  {
    if dir != [] {
      DueExactlyWhen(dir[1..], now, r);
      HoldsInRest(dir, r.name, r.doc);
      DueHeadAndRest(dir, now, r);
    }
  }

  lemma DueHeadAndRest(dir: seq<File>, now: real, r: Spooled)
    requires dir != []
    ensures r in Due(dir, now) <==>
              (r == Spooled(dir[0].name, dir[0].doc) && now >= dir[0].doc.nextAttempt) || r in Due(dir[1..], now)
  {
  }

  /** A delivery pass begins with every record whose backoff has elapsed, and no other, in the order of the listing. */
  lemma EveryDueRecordIsListed(c: Config, es: seq<Event>, now: real)
    ensures var dir, flight := Run(c, es).spool.dir, Run(c, es + [Listed(now)]).flight;
            && (forall r :: r in flight <==> Holds(dir, r.name, r.doc) && r.doc.nextAttempt <= now)
            && (forall i, j | 0 <= i < j < |flight| :: Before(flight[i].name, flight[j].name))
            && Run(c, es + [Listed(now)]).spool == Run(c, es).spool
  {
    RunOfOneMore(c, es, Listed(now));
    RunIsSorted(c, es);
    var dir := Run(c, es).spool.dir;
    DueComesFromDir(dir, now);
    forall r ensures r in Due(dir, now) <==> Holds(dir, r.name, r.doc) && r.doc.nextAttempt <= now {
      DueExactlyWhen(dir, now, r);
    }
  }

  // ---------- what is shed ----------

  /** The bytes of the file of this name and of everything that sorts after it. */
  function BytesFrom(dir: seq<File>, name: string): nat {
    if dir == [] then 0
    else
      var rest := BytesFrom(dir[1..], name);
      if Before(dir[0].name, name) then rest else dir[0].bytes + rest
  }

  lemma {:induction false} BytesFromIsPart(dir: seq<File>, name: string)
    ensures BytesFrom(dir, name) <= Bytes(dir)
    ensures (forall g | g in dir :: !Before(g.name, name)) ==> BytesFrom(dir, name) == Bytes(dir)
  {
    if dir != [] {
      assert dir == [dir[0]] + dir[1..];
      BytesFromIsPart(dir[1..], name);
    }
  }

  /** A file is shed exactly when it and everything after it are more than the ceiling. */
  lemma {:induction false} ShedExactlyWhen(maxBytes: int, dir: seq<File>, f: File)
    requires Sorted(dir) && f in dir
    ensures f in Shed(maxBytes, dir) <==> BytesFrom(dir, f.name) <= maxBytes
  {
    BytesFromIsPart(dir, f.name);
    if Bytes(dir) > maxBytes {
      FirstSortsFirst(dir);
      ShedKeepsOrder(maxBytes, dir[1..]);
      if f in dir[1..] {
        ShedExactlyWhen(maxBytes, dir[1..], f);
      } else {
        BeforeIsIrreflexive(f.name);
        forall g | g in dir[1..] ensures !Before(g.name, f.name) {
          BeforeIsAsymmetric(f.name, g.name);
        }
      }
    }
  }

  lemma SameNameSameFile(dir: seq<File>, f: File, g: File)
    requires Sorted(dir) && f in dir && g in dir && f.name == g.name
    ensures f == g
  {
    BeforeIsIrreflexive(f.name);
  }

  /** The file a put writes: never tried, dated now, and due at once. */
  function FileOf(l: Line, e: Event): File
    requires e.Submitted?
  {
    File(NewName(l.spool, e.sink, e.now), Document(e.sink, e.payload, 0, Some(e.now), 0.0), e.bytes)
  }

  /** A name tells when its record came, in whole milliseconds, and as the how-manieth of its process. */
  lemma NameTellsArrival(s: State, sink: string, now: real, millis: nat)
    requires millis as real <= 1000.0 * now < (millis + 1) as real
    ensures NewName(s, sink, now) == Pad(millis, 13) + ("-" + (Pad(s.sequence + 1, 6) + ("-" + (sink + ".json"))))
  {
    assert (now * 1000.0).Floor == millis;
  }

  /** Where a file stands after a put: its own or the new one, unless it is shed. */
  lemma PutKeepsExactlyWhen(c: Config, l: Line, e: Event, g: File)
    requires Sorted(l.spool.dir) && Puts(e)
    ensures var written := Write(l.spool.dir, FileOf(l, e));
            g in Step(c, l, e).spool.dir <==>
              (g == FileOf(l, e) || (g in l.spool.dir && g.name != FileOf(l, e).name)) && BytesFrom(written, g.name) <= c.maxBytes
  {
    var f := FileOf(l, e);
    var written := Write(l.spool.dir, f);
    WriteKeepsOrder(l.spool.dir, f);
    assert f == NewFile(l.spool, e.sink, e.payload, e.bytes, e.now);
    ShedKeepsOrder(c.maxBytes, written);
    if g in written {
      ShedExactlyWhen(c.maxBytes, written, g);
    }
  }

  // ---------- what leaves, what comes, what changes ----------

  predicate Heads(l: Line, name: string) {
    l.flight != [] && l.flight[0].name == name
  }

  /** Queued longer ago than the age limit. */
  predicate TooOld(c: Config, queued: Option<real>, now: real) {
    queued.Some? && queued.value + c.maxAge < now
  }

  /** After this many failures, the longest the next wait can be. */
  function LongestWait(base: real, failures: nat): real {
    var doubled := Doubled(base, failures);
    if doubled < 3600.0 then doubled else 3600.0
  }

  function Doubled(base: real, times: nat): real {
    if times == 0 then base else 2.0 * Doubled(base, times - 1)
  }

  lemma {:induction false} DoublingMultiplies(base: real, times: nat)
    ensures Doubled(base, times) == base * Pow2(times) as real
  {
    if times > 0 {
      DoublingMultiplies(base, times - 1);
      var p := Pow2(times - 1) as real;
      assert Pow2(times) as real == 2.0 * p;
      assert base * (2.0 * p) == 2.0 * (base * p);
    }
  }

  /** The document of a record that failed once more, to be tried again after between half and all of the longest wait. */
  predicate Rescheduled(c: Config, was: Document, doc: Document, now: real) {
    && doc == was.(attempts := was.attempts + 1, nextAttempt := doc.nextAttempt)
    && var wait := LongestWait(c.baseBackoff, was.attempts); now + wait / 2.0 <= doc.nextAttempt <= now + wait
  }

  lemma RetryReschedules(c: Config, doc: Document, now: real, jitter: real)
    requires c.baseBackoff >= 0.0 && SpoolBackoff.Jitter(jitter)
    ensures Rescheduled(c, doc, Retry(c, doc, now, jitter), now)
  {
    SpoolBackoff.DelayIsBracketed(doc.attempts + 1, c.baseBackoff, MAX_BACKOFF, jitter);
    DoublingMultiplies(c.baseBackoff, doc.attempts);
  }

  /** A failure removes a record that is too old, and reschedules any other, whose file is then there even if it had gone. */
  lemma FailureExactlyWhen(c: Config, l: Line, e: Event, g: File)
    requires Sorted(l.spool.dir) && e.Failed? && l.flight != [] && c.baseBackoff >= 0.0 && SpoolBackoff.Jitter(e.jitter)
    ensures var r, dir' := l.flight[0], Step(c, l, e).spool.dir;
            && (g.name != r.name ==> (g in dir' <==> g in l.spool.dir))
            && (g.name == r.name && TooOld(c, r.doc.firstQueued, e.now) ==> g !in dir')
            && (!TooOld(c, r.doc.firstQueued, e.now) && !e.written ==> (g in dir' <==> g in l.spool.dir))
            && (g.name == r.name && !TooOld(c, r.doc.firstQueued, e.now) && e.written ==>
                  r.name in Names(dir') && (g in dir' ==> Rescheduled(c, r.doc, g.doc, e.now)))
  {
    var r := l.flight[0];
    var f := File(r.name, Retry(c, r.doc, e.now, e.jitter), e.bytes);
    UnlinkKeepsOrder(l.spool.dir, r.name);
    WriteKeepsOrder(l.spool.dir, f);
    RetryReschedules(c, r.doc, e.now, e.jitter);
    if !TooOld(c, r.doc.firstQueued, e.now) && e.written {
      assert f in Step(c, l, e).spool.dir;
    }
  }

  /** Purging removes exactly the files that are too old. */
  lemma PurgeExactlyWhen(c: Config, l: Line, now: real, g: File)
    requires Sorted(l.spool.dir)
    ensures g in Step(c, l, Purged(now)).spool.dir <==> g in l.spool.dir && !TooOld(c, g.doc.firstQueued, now)
  {
    FreshKeepsOrder(c, l.spool.dir, now);
  }

  // ---------- over runs ----------

  /** Why the record of this name, handed in at `queued`, leaves the directory. */
  predicate Leaves(c: Config, l: Line, e: Event, name: string, queued: real) {
    || (e.Delivered? && Heads(l, name))
    || (e.Failed? && Heads(l, name) && TooOld(c, Some(queued), e.now))
    || (e.Purged? && TooOld(c, Some(queued), e.now))
    || (Puts(e) && BytesFrom(Write(l.spool.dir, FileOf(l, e)), name) > c.maxBytes)
  }

  /** In the directory after a put: what was there and the new file, as far as the ceiling allows. */
  lemma NamesAfterPut(c: Config, l: Line, e: Event, name: string)
    requires Sorted(l.spool.dir) && Puts(e)
    ensures name in Names(Step(c, l, e).spool.dir) <==>
              (name in Names(l.spool.dir) || name == FileOf(l, e).name)
              && BytesFrom(Write(l.spool.dir, FileOf(l, e)), name) <= c.maxBytes
  {
    var f := FileOf(l, e);
    PutKeepsExactlyWhen(c, l, e, f);
    if g :| g in l.spool.dir && g.name == name {
      PutKeepsExactlyWhen(c, l, e, g);
    }
    if g :| g in Step(c, l, e).spool.dir && g.name == name {
      PutKeepsExactlyWhen(c, l, e, g);
    }
  }

  lemma NamesAfterFailure(c: Config, l: Line, e: Event, name: string)
    requires Sorted(l.spool.dir) && e.Failed? && l.flight != []
    ensures var r := l.flight[0]; var tooOld := TooOld(c, r.doc.firstQueued, e.now);
            name in Names(Step(c, l, e).spool.dir) <==>
              if name == r.name then !tooOld && (e.written || name in Names(l.spool.dir)) else name in Names(l.spool.dir)
  {
    var r := l.flight[0];
    var f := File(r.name, Retry(c, r.doc, e.now, e.jitter), e.bytes);
    UnlinkKeepsOrder(l.spool.dir, r.name);
    WriteKeepsOrder(l.spool.dir, f);
    if !TooOld(c, r.doc.firstQueued, e.now) && e.written {
      assert f in Step(c, l, e).spool.dir;
      NamesAfterWrite(l.spool.dir, f, name);
    } else if TooOld(c, r.doc.firstQueued, e.now) {
      NamesAfterUnlink(l.spool.dir, r.name, name);
    }
  }

  lemma NamesAfterWrite(dir: seq<File>, f: File, name: string)
    requires Sorted(dir)
    ensures name in Names(Write(dir, f)) <==> name == f.name || name in Names(dir)
  {
    WriteKeepsOrder(dir, f);
    assert f in Write(dir, f);
    if g :| g in dir && g.name == name && name != f.name {
      assert g in Write(dir, f);
    }
  }

  lemma NamesAfterUnlink(dir: seq<File>, gone: string, name: string)
    requires Sorted(dir)
    ensures name in Names(Unlink(dir, gone)) <==> name != gone && name in Names(dir)
  {
    UnlinkKeepsOrder(dir, gone);
    if g :| g in dir && g.name == name && name != gone {
      assert g in Unlink(dir, gone);
    }
  }

  lemma NamesAfterPurge(c: Config, l: Line, now: real, name: string)
    requires Sorted(l.spool.dir) && Faithful(l) && name in Names(l.spool.dir)
    ensures name in l.arrivals
    ensures name in Names(Step(c, l, Purged(now)).spool.dir) <==> !TooOld(c, Some(l.arrivals[name].at), now)
  {
    var g :| g in l.spool.dir && g.name == name;
    PurgeExactlyWhen(c, l, now, g);
    FreshKeepsOrder(c, l.spool.dir, now);
  }

  /**
    A record leaves the directory exactly by being delivered, by failing or being purged later than the age
    limit after it was handed in, or by a put that leaves no room for it and everything after it.
   */
  lemma LeavesExactlyWhen(c: Config, es: seq<Event>, e: Event, name: string)
    requires RestartsAdvance(es) && name in Names(Run(c, es).spool.dir)
    ensures var l := Run(c, es);
            && name in l.arrivals
            && (name !in Names(Run(c, es + [e]).spool.dir) <==> Leaves(c, l, e, name, l.arrivals[name].at))
  {
    var l := Run(c, es);
    RunOfOneMore(c, es, e);
    RunIsSorted(c, es);
    RunIsFaithful(c, es);
    match e
    case Submitted(_, _, _, _, disk) =>
      if disk == Stored {
        NamesAfterPut(c, l, e, name);
      }
    case Listed(_) =>
    case Delivered(_) =>
      if l.flight != [] {
        NamesAfterUnlink(l.spool.dir, l.flight[0].name, name);
      }
    case Failed(_, _, _, _) =>
      if l.flight != [] {
        assert l.flight[0] in l.flight;
        NamesAfterFailure(c, l, e, name);
      }
    case Purged(now) => NamesAfterPurge(c, l, now, name);
    case Restarted(_) =>
  }

  /** And a name comes into the directory exactly by a put it fits in, or by rewriting a record gone since it was listed. */
  lemma ComesExactlyWhen(c: Config, es: seq<Event>, e: Event, name: string)
    requires name !in Names(Run(c, es).spool.dir)
    ensures var l := Run(c, es);
            name in Names(Run(c, es + [e]).spool.dir) <==>
              || (Puts(e) && name == FileOf(l, e).name && BytesFrom(Write(l.spool.dir, FileOf(l, e)), name) <= c.maxBytes)
              || (e.Failed? && Heads(l, name) && e.written && !TooOld(c, l.flight[0].doc.firstQueued, e.now))
  {
    var l := Run(c, es);
    RunOfOneMore(c, es, e);
    RunIsSorted(c, es);
    match e
    case Submitted(_, _, _, _, disk) =>
      if disk == Stored {
        NamesAfterPut(c, l, e, name);
      }
    case Listed(_) =>
    case Delivered(_) =>
      if l.flight != [] {
        NamesAfterUnlink(l.spool.dir, l.flight[0].name, name);
      }
    case Failed(_, _, _, _) =>
      if l.flight != [] {
        NamesAfterFailure(c, l, e, name);
      }
    case Purged(now) => FreshKeepsOrder(c, l.spool.dir, now);
    case Restarted(_) =>
  }

  /** Each counter goes up with its own kind of event, by as many records as it concerns, and starts again with the service. */
  lemma CountersTellWhatHappened(c: Config, l: Line, e: Event)
    requires Sorted(l.spool.dir) && !e.Restarted?
    ensures var s, s' := l.spool, Step(c, l, e).spool;
            && s'.queued == s.queued + (if Puts(e) then 1 else 0)
            && s'.delivered == s.delivered + (if e.Delivered? && l.flight != [] then 1 else 0)
            && s'.dropped == s.dropped + (if Puts(e) then |s.dir| + (if Overwrites(l, e) then 0 else 1) - |s'.dir| else 0)
            && s'.expired == s.expired
               + (if e.Failed? && l.flight != [] && TooOld(c, l.flight[0].doc.firstQueued, e.now) then 1 else 0)
               + (if e.Purged? then |s.dir| - |s'.dir| else 0)
  {
    if Puts(e) {
      PutLists(c, l, e);
    }
  }
}
