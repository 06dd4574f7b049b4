/** What is filed for a sink, and when an attempt takes a record off the spool. */
module ExporterDeliveries {
  import opened Basics
  import opened Records
  import opened ExporterModel
  import opened ExporterRuns
  import FileNames
  import SpoolModel
  import SpoolRuns
  import SpoolFates
  import SpoolBackoff
  import Issues = LifecycleModel
  import LifecycleRuns

  // ---------- what is filed ----------

  /** The level a sink is configured for, and the least one for a workload that did not agree to more. */
  function Granted(c: Config, sink: string, consent: Consent): Level {
    if sink !in c.levels || !Consented(consent) then Metadata else c.levels[sink]
  }

  /** A document holds, beside its key, exactly what the sink's level and the workload's consent let through. */
  ghost predicate Discloses(doc: Payload, p: Proposal, node: map<string, Value>, level: Level) {
    forall f | f != IdempotencyKey :: (f in doc <==> LetsThrough(level, node, f)) && (f in doc ==> doc[f] == ValueOf(p, node, f))
  }

  /** May a level that was granted transmit a field? */
  predicate LetsThrough(level: Level, node: map<string, Value>, f: Field) {
    match SensitivityOf(f)
    case Operational => true
    case NodeIdentity => node != map[]
    case Derived => level in {Analysis, Full}
    case Evidence => level == Full
    case NeverSent => false
  }

  lemma GrantedLevelShows(c: Config, sink: string, consent: Consent, f: Field)
    ensures Visible(f, EffectiveLevel(LevelFor(c, sink), Permits(consent)), c.node)
       <==> LetsThrough(Granted(c, sink, consent), c.node, f)
  {
  }

  /** The payload that is filed, before its key is added. */
  lemma PayloadDiscloses(c: Config, sink: string, p: Proposal, consent: Consent)
    ensures Discloses(BuildPayload(p, EffectiveLevel(LevelFor(c, sink), Permits(consent)), c.node), p, c.node,
                      Granted(c, sink, consent))
  {
    var level := EffectiveLevel(LevelFor(c, sink), Permits(consent));
    PayloadIsShaped(p, level, c.node);
    forall f ensures f in BuildPayload(p, level, c.node) <==> LetsThrough(Granted(c, sink, consent), c.node, f) {
      GrantedLevelShows(c, sink, consent, f);
    }
  }

  lemma DisclosesWithKey(payload: Payload, key: Value, p: Proposal, node: map<string, Value>, level: Level)
    requires Discloses(payload, p, node, level)
    ensures Discloses(payload[IdempotencyKey := key], p, node, level)
  {
  }

  /** And the key it is filed under is made of the problem's key and the proposal's total. */
  lemma WhatIsFiled(c: Config, sink: string, p: Proposal, consent: Consent, problem: string, total: nat)
    requires Get(p.metadata, ProblemKey) == Text(problem) && Get(p.metadata, TotalOccurrences) == Count(total)
    ensures var doc := ExportDocument(c, sink, p, consent);
            && Discloses(doc, p, c.node, Granted(c, sink, consent))
            && Get(doc, IdempotencyKey) == Text(problem + "-" + FileNames.Pad(total, 1))
  {
    PayloadDiscloses(c, sink, p, consent);
    TotalIsFiled(c, sink, p, consent);
    var payload := BuildPayload(p, EffectiveLevel(LevelFor(c, sink), Permits(consent)), c.node);
    DisclosesWithKey(payload, Text(KeyOf(problem, total)), p, c.node, Granted(c, sink, consent));
  }

  lemma TotalIsFiled(c: Config, sink: string, p: Proposal, consent: Consent)
    ensures var payload := BuildPayload(p, EffectiveLevel(LevelFor(c, sink), Permits(consent)), c.node);
            Get(payload, TotalOccurrences) == Get(p.metadata, TotalOccurrences)
  {
    FieldIsShaped(p, EffectiveLevel(LevelFor(c, sink), Permits(consent)), c.node, TotalOccurrences);
  }

  /** What a lifecycle reads from the copy filed for its tracker: the proposal's own facts, and its cause if that may be said. */
  lemma WhatATrackerReads(c: Config, sink: string, p: Proposal, consent: Consent)
    ensures var r := ReadRecord(Stripped(ExportDocument(c, sink, p, consent)));
            && (Get(p.fields, Grading).Grade? ==> r.severity == Get(p.fields, Grading).severity)
            && (Get(p.metadata, ProblemKey).Text? ==> r.problemKey == Get(p.metadata, ProblemKey).text)
            && (Get(p.metadata, LastSeen).Moment? ==> r.lastSeen == Get(p.metadata, LastSeen).stamp)
            && (Get(p.metadata, TotalOccurrences).Count? ==> r.totalOccurrences == Get(p.metadata, TotalOccurrences).count)
            && (Get(p.fields, RootCause).Text? ==>
                  r.rootCause == if Granted(c, sink, consent) in {Analysis, Full} then Get(p.fields, RootCause).text else "")
  {
    StrippedDiscloses(c, sink, p, consent);
    ReadsAs(Stripped(ExportDocument(c, sink, p, consent)), p, c.node, Granted(c, sink, consent));
  }

  lemma StrippedDiscloses(c: Config, sink: string, p: Proposal, consent: Consent)
    ensures Discloses(Stripped(ExportDocument(c, sink, p, consent)), p, c.node, Granted(c, sink, consent))
  {
    PayloadDiscloses(c, sink, p, consent);
    KeyComesOff(BuildPayload(p, EffectiveLevel(LevelFor(c, sink), Permits(consent)), c.node),
                ExportDocument(c, sink, p, consent), p, c.node, Granted(c, sink, consent));
  }

  lemma KeyComesOff(payload: Payload, doc: Payload, p: Proposal, node: map<string, Value>, level: Level)
    requires Discloses(payload, p, node, level)
    requires IdempotencyKey in doc && doc == payload[IdempotencyKey := doc[IdempotencyKey]]
    ensures Discloses(Stripped(doc), p, node, level)
  {
  }

  lemma ReadsAs(payload: Payload, p: Proposal, node: map<string, Value>, level: Level)
    requires Discloses(payload, p, node, level)
    ensures var r := ReadRecord(payload);
            && (Get(p.fields, Grading).Grade? ==> r.severity == Get(p.fields, Grading).severity)
            && (Get(p.metadata, ProblemKey).Text? ==> r.problemKey == Get(p.metadata, ProblemKey).text)
            && (Get(p.metadata, LastSeen).Moment? ==> r.lastSeen == Get(p.metadata, LastSeen).stamp)
            && (Get(p.metadata, TotalOccurrences).Count? ==> r.totalOccurrences == Get(p.metadata, TotalOccurrences).count)
            && (Get(p.fields, RootCause).Text? ==>
                  r.rootCause == if level in {Analysis, Full} then Get(p.fields, RootCause).text else "")
  {
    assert LetsThrough(level, node, Grading) && LetsThrough(level, node, ProblemKey);
    assert LetsThrough(level, node, LastSeen) && LetsThrough(level, node, TotalOccurrences);
    assert LetsThrough(level, node, RootCause) <==> level in {Analysis, Full};
  }

  // ---------- every part hears of what concerns it ----------

  /** A submission that the disk takes is queued, to be delivered at once, if it fits the spool. */
  lemma SubmittedIsQueued(c: Config, es: seq<Event>, e: Event)
    requires e.Submitted? && Files(e, e.sink)
    ensures var l, l' := Run(c, es).line, Run(c, es + [e]).line;
            var doc := SpoolModel.Document(e.sink, ExportDocument(c, e.sink, e.p, e.consent), 0, Some(e.now), 0.0);
            var f := SpoolModel.File(SpoolModel.NewName(l.spool, e.sink, e.now), doc, e.bytes);
            && l'.spool.queued == l.spool.queued + 1
            && (f in l'.spool.dir <==> SpoolFates.BytesFrom(SpoolModel.Write(l.spool.dir, f), f.name) <= c.spool.maxBytes)
  {
    RunOfOneMore(c, es, e);
    ComponentsRunAsSpecified(c, es);
    SpoolRuns.RunIsSorted(c.spool, SpoolTrace(c, es));
    var put := SpoolRuns.Submitted(e.now, e.sink, ExportDocument(c, e.sink, e.p, e.consent), e.bytes, e.disk);
    assert SpoolMove(c, Run(c, es), e) == Some(put);
    SpoolFates.PutKeepsExactlyWhen(c.spool, Run(c, es).line, put, SpoolFates.FileOf(Run(c, es).line, put));
  }

  /** A pass attempts every record that is due, and no other. */
  lemma EveryDueRecordIsAttempted(c: Config, es: seq<Event>, now: real, r: SpoolModel.Spooled)
    ensures r in Run(c, es + [Listed(now)]).line.flight <==>
              SpoolFates.Holds(Run(c, es).line.spool.dir, r.name, r.doc) && r.doc.nextAttempt <= now
  {
    RunOfOneMore(c, es, Listed(now));
    assert SpoolMove(c, Run(c, es), Listed(now)) == Some(SpoolRuns.Listed(now));
    SpoolFates.DueExactlyWhen(Run(c, es).line.spool.dir, now, r);
  }

  /** Purging throws away exactly what is past the age limit. */
  lemma PurgedExactlyWhen(c: Config, es: seq<Event>, now: real, f: SpoolModel.File)
    ensures f in Run(c, es + [Purged(now)]).line.spool.dir <==>
              f in Run(c, es).line.spool.dir && !SpoolFates.TooOld(c.spool, f.doc.firstQueued, now)
  {
    RunOfOneMore(c, es, Purged(now));
    ComponentsRunAsSpecified(c, es);
    SpoolRuns.RunIsSorted(c.spool, SpoolTrace(c, es));
    assert SpoolMove(c, Run(c, es), Purged(now)) == Some(SpoolRuns.Purged(now));
    SpoolFates.PurgeExactlyWhen(c.spool, Run(c, es).line, now, f);
  }

  /** Every tracker is swept, each with its own refusals, and nothing else is. */
  lemma SweepReachesEveryTracker(c: Config, es: seq<Event>, now: real, refused: map<string, set<Issues.Ref>>, sink: string)
    requires sink in c.trackers
    ensures var s, s' := Run(c, es), Run(c, es + [Swept(now, refused)]);
            && sink in s.worlds && sink in s'.worlds && s'.line == s.line && s'.receipts == s.receipts
            && s'.worlds[sink] == Issues.Sweep(c.trackers[sink], s.worlds[sink], now, if sink in refused then refused[sink] else {})
  {
    RunOfOneMore(c, es, Swept(now, refused));
    ComponentsRunAsSpecified(c, es);
  }

  // ---------- one attempt ----------

  /** The record goes to an event sink, or to a tracker's lifecycle. */
  predicate ToEventSink(c: Config, r: SpoolModel.Spooled) {
    r.doc.sink in c.eventSinks
  }

  predicate ToTracker(c: Config, s: State, r: SpoolModel.Spooled) {
    r.doc.sink !in c.eventSinks && r.doc.sink in c.trackers && r.doc.sink in s.worlds
  }

  /** The lifecycle's `handle` of the record. */
  function HandleOf(r: SpoolModel.Spooled, now: real, reply: Reply): Issues.Event {
    Issues.Handled(ReadRecord(Stripped(r.doc.payload)), now, reply.tracker)
  }

  /** The attempt settles its record: the sink acknowledged it, or the lifecycle did not raise, or nobody wants it. */
  predicate Settles(c: Config, s: State, now: real, reply: Reply)
    requires s.line.flight != []
  {
    var r := s.line.flight[0];
    && (ToEventSink(c, r) ==> reply.sends)
    && (ToTracker(c, s, r) ==> !LifecycleRuns.Fails(c.trackers[r.doc.sink], s.worlds[r.doc.sink], HandleOf(r, now, reply)))
  }

  /** What an attempt returns: true exactly when the record was acknowledged or handled, not when nobody wants it. */
  lemma ReturnsTrueExactlyWhen(c: Config, s: State, now: real, reply: Reply)
    requires s.line.flight != []
    ensures var r := s.line.flight[0];
            Succeeds(ResultOf(c, s, now, reply)) <==> Settles(c, s, now, reply) && (ToEventSink(c, r) || ToTracker(c, s, r))
  {
  }

  /** A settled record is off the disk and counted as delivered. */
  predicate TakenOff(l: SpoolRuns.Line, l': SpoolRuns.Line, r: SpoolModel.Spooled) {
    && l'.sent == l.sent + [r.name] && r.name !in SpoolRuns.Names(l'.spool.dir)
    && l'.spool.delivered == l.spool.delivered + 1 && l'.spool.expired == l.spool.expired
  }

  /** Any other is not: it waits to be tried once more, unless it is past the age limit or cannot be rewritten. */
  ghost predicate PutOff(c: SpoolModel.Config, l: SpoolRuns.Line, l': SpoolRuns.Line, r: SpoolModel.Spooled, now: real, written: bool) {
    var tooOld := SpoolFates.TooOld(c, r.doc.firstQueued, now);
    && l'.sent == l.sent && l'.spool.delivered == l.spool.delivered
    && l'.spool.expired == l.spool.expired + (if tooOld then 1 else 0)
    && (tooOld ==> r.name !in SpoolRuns.Names(l'.spool.dir))
    && (!tooOld && !written ==> l'.spool.dir == l.spool.dir)
    && (!tooOld && written ==>
          && r.name in SpoolRuns.Names(l'.spool.dir)
          && forall f | f in l'.spool.dir && f.name == r.name :: SpoolFates.Rescheduled(c, r.doc, f.doc, now))
  }

  lemma SettlingStep(c: Config, s: State, now: real, reply: Reply)
    requires s.line.flight != [] && SpoolRuns.Sorted(s.line.spool.dir) && Settles(c, s, now, reply)
    ensures var s', r := Step(c, s, Attempted(now, reply)), s.line.flight[0];
            s'.line.flight == s.line.flight[1..] && TakenOff(s.line, s'.line, r)
  {
    var r := s.line.flight[0];
    SpoolRuns.UnlinkKeepsOrder(s.line.spool.dir, r.name);
    assert SpoolMove(c, s, Attempted(now, reply)) == Some(SpoolRuns.Delivered(now));
  }

  lemma FailingStep(c: Config, s: State, now: real, reply: Reply)
    requires s.line.flight != [] && SpoolRuns.Sorted(s.line.spool.dir) && !Settles(c, s, now, reply)
    requires c.spool.baseBackoff >= 0.0 && SpoolBackoff.Jitter(reply.jitter)
    ensures var s', r := Step(c, s, Attempted(now, reply)), s.line.flight[0];
            s'.line.flight == s.line.flight[1..] && PutOff(c.spool, s.line, s'.line, r, now, reply.written)
  {
    var failed := SpoolRuns.Failed(now, reply.jitter, reply.bytes, reply.written);
    assert SpoolMove(c, s, Attempted(now, reply)) == Some(failed);
    FailedLine(c.spool, s.line, failed);
  }

  lemma FailedLine(c: SpoolModel.Config, l: SpoolRuns.Line, e: SpoolRuns.Event)
    requires l.flight != [] && SpoolRuns.Sorted(l.spool.dir) && e.Failed?
    requires c.baseBackoff >= 0.0 && SpoolBackoff.Jitter(e.jitter)
    ensures var l' := SpoolRuns.Step(c, l, e);
            l'.flight == l.flight[1..] && PutOff(c, l, l', l.flight[0], e.now, e.written)
  {
    SpoolFates.NamesAfterFailure(c, l, e, l.flight[0].name);
    forall f | f in SpoolRuns.Step(c, l, e).spool.dir
      ensures f.name == l.flight[0].name && !SpoolFates.TooOld(c, l.flight[0].doc.firstQueued, e.now) && e.written ==>
                SpoolFates.Rescheduled(c, l.flight[0].doc, f.doc, e.now)
    {
      SpoolFates.FailureExactlyWhen(c, l, e, f);
    }
  }

  /**
    An attempt takes its record off the spool if and only if its event sink acknowledged it, its lifecycle
    handled it without raising, or its sink is no longer configured. Any other attempt schedules a retry.
   */
  lemma AttemptSettlesExactlyWhen(c: Config, es: seq<Event>, now: real, reply: Reply)
    requires Run(c, es).line.flight != [] && c.spool.baseBackoff >= 0.0 && SpoolBackoff.Jitter(reply.jitter)
    ensures var s, s' := Run(c, es), Run(c, es + [Attempted(now, reply)]);
            var r := s.line.flight[0];
            && s'.line.flight == s.line.flight[1..]
            && (Settles(c, s, now, reply) ==> TakenOff(s.line, s'.line, r))
            && (!Settles(c, s, now, reply) ==> PutOff(c.spool, s.line, s'.line, r, now, reply.written))
  {
    RunOfOneMore(c, es, Attempted(now, reply));
    ComponentsRunAsSpecified(c, es);
    SpoolRuns.RunIsSorted(c.spool, SpoolTrace(c, es));
    if Settles(c, Run(c, es), now, reply) {
      SettlingStep(c, Run(c, es), now, reply);
    } else {
      FailingStep(c, Run(c, es), now, reply);
    }
  }

  /** The lifecycle of the record's own tracker handles it, once, and no other tracker is touched. */
  lemma OnlyItsTrackerMoves(c: Config, es: seq<Event>, now: real, reply: Reply, sink: string)
    requires Run(c, es).line.flight != [] && sink in c.trackers
    ensures var s, s' := Run(c, es), Run(c, es + [Attempted(now, reply)]);
            var r := s.line.flight[0];
            && sink in s.worlds && sink in s'.worlds
            && s'.worlds[sink] == if ToTracker(c, s, r) && r.doc.sink == sink
                                  then Issues.Step(c.trackers[sink], s.worlds[sink], HandleOf(r, now, reply))
                                  else s.worlds[sink]
  {
    RunOfOneMore(c, es, Attempted(now, reply));
    ComponentsRunAsSpecified(c, es);
    ComponentsRunAsSpecified(c, es + [Attempted(now, reply)]);
  }

  // ---------- over runs ----------

  /** The `i`-th event is an attempt that settles the record of this name. */
  predicate SettledAt(c: Config, es: seq<Event>, i: nat, name: string) {
    && i < |es| && es[i].Attempted?
    && (var s := Run(c, es[..i]);
        SpoolFates.Heads(s.line, name) && Settles(c, s, es[i].now, es[i].reply))
  }

  lemma SettledBefore(c: Config, es: seq<Event>, i: nat, name: string)
    requires es != [] && SettledAt(c, es[..|es| - 1], i, name)
    ensures SettledAt(c, es, i, name)
  {
    assert es[..|es| - 1][..i] == es[..i];
  }

  lemma NewlySent(c: Config, s: State, e: Event, name: string)
    requires name in Step(c, s, e).line.sent && name !in s.line.sent
    ensures e.Attempted? && SpoolFates.Heads(s.line, name) && Settles(c, s, e.now, e.reply)
  {
  }

  /**
    Nothing counts as delivered that was not: every record taken off the spool was acknowledged by its event
    sink, or handled by its tracker's lifecycle without raising, or filed for a sink no longer configured.
   */
  lemma {:induction false} DeliveredWasSettled(c: Config, es: seq<Event>, name: string)
    requires name in Run(c, es).line.sent
    ensures exists i: nat :: SettledAt(c, es, i, name)
  {
    var front, e := es[..|es| - 1], es[|es| - 1];
    if name in Run(c, front).line.sent {
      DeliveredWasSettled(c, front, name);
      var i: nat :| SettledAt(c, front, i, name);
      SettledBefore(c, es, i, name);
    } else {
      NewlySent(c, Run(c, front), e, name);
      assert SettledAt(c, es, |es| - 1, name);
    }
  }
}
