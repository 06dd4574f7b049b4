/** End-to-end properties: what the spool and the trackers guarantee survives their composition. */
module ExporterRuns {
  import opened Basics
  import opened Records
  import opened ExporterModel
  import SpoolModel
  import SpoolRuns
  import Issues = LifecycleModel
  import LifecycleRuns

  // ---------- projections ----------

  function Moved<T>(trace: seq<T>, move: Option<T>): seq<T> {
    if move.Some? then trace + [move.value] else trace
  }

  function SpoolTrace(c: Config, es: seq<Event>): seq<SpoolRuns.Event> {
    if es == [] then []
    else
      var front := es[..|es| - 1];
      Moved(SpoolTrace(c, front), SpoolMove(c, Run(c, front), es[|es| - 1]))
  }

  function TrackerTrace(c: Config, es: seq<Event>, sink: string): seq<Issues.Event> {
    if es == [] then []
    else
      var front := es[..|es| - 1];
      Moved(TrackerTrace(c, front, sink), TrackerMove(c, Run(c, front), es[|es| - 1], sink))
  }

  /** The spool inside a running exporter is a spool run, and each tracker's ledger a lifecycle run. */
  lemma {:induction false} ComponentsRunAsSpecified(c: Config, es: seq<Event>)
    ensures Run(c, es).line == SpoolRuns.Run(c.spool, SpoolTrace(c, es))
    ensures Run(c, es).worlds.Keys == c.trackers.Keys
    ensures forall sink | sink in c.trackers ::
              Run(c, es).worlds[sink] == Issues.Run(c.trackers[sink], Issues.START, TrackerTrace(c, es, sink))
  {
    if es != [] {
      var front, e := es[..|es| - 1], es[|es| - 1];
      ComponentsRunAsSpecified(c, front);
      var s := Run(c, front);
      SpoolRunOfMore(c, SpoolTrace(c, front), SpoolMove(c, s, e));
      forall sink | sink in c.trackers
        ensures Run(c, es).worlds[sink] == Issues.Run(c.trackers[sink], Issues.START, TrackerTrace(c, es, sink))
      {
        TrackerRunOfMore(c.trackers[sink], TrackerTrace(c, front, sink), TrackerMove(c, s, e, sink));
      }
    }
  }

  lemma SpoolRunOfMore(c: Config, trace: seq<SpoolRuns.Event>, move: Option<SpoolRuns.Event>)
    ensures SpoolRuns.Run(c.spool, Moved(trace, move)) == MoveLine(c, SpoolRuns.Run(c.spool, trace), move)
  {
    if move.Some? {
      assert (trace + [move.value])[..|trace|] == trace;
    }
  }

  lemma TrackerRunOfMore(c: Issues.Config, trace: seq<Issues.Event>, move: Option<Issues.Event>)
    ensures Issues.Run(c, Issues.START, Moved(trace, move)) == MoveWorld(c, Issues.Run(c, Issues.START, trace), move)
  {
    if move.Some? {
      assert (trace + [move.value])[..|trace|] == trace;
    }
  }

  // ---------- hypotheses carry over ----------

  /** Every tracker issues references it has not issued before. */
  ghost predicate FreshReplies(c: Config, es: seq<Event>) {
    forall i, sink | 0 <= i < |es| && sink in c.trackers ::
      FreshMove(c, Run(c, es[..i]), es[i], sink)
  }

  ghost predicate FreshMove(c: Config, s: State, e: Event, sink: string) {
    sink in s.worlds && TrackerMove(c, s, e, sink).Some? ==>
      Issues.FreshReply(s.worlds[sink], TrackerMove(c, s, e, sink).value)
  }

  lemma FreshPrefix(c: Config, es: seq<Event>)
    requires es != [] && FreshReplies(c, es)
    ensures FreshReplies(c, es[..|es| - 1])
  {
    var front := es[..|es| - 1];
    forall i, sink | 0 <= i < |front| && sink in c.trackers
      ensures FreshMove(c, Run(c, front[..i]), front[i], sink)
    {
      assert front[..i] == es[..i];
      assert FreshMove(c, Run(c, es[..i]), es[i], sink);
    }
  }

  lemma {:induction false} TrackerRepliesAreFresh(c: Config, es: seq<Event>, sink: string)
    requires FreshReplies(c, es) && sink in c.trackers
    ensures Issues.FreshReplies(c.trackers[sink], Issues.START, TrackerTrace(c, es, sink))
  {
    if es != [] {
      var front, e := es[..|es| - 1], es[|es| - 1];
      FreshPrefix(c, es);
      TrackerRepliesAreFresh(c, front, sink);
      ComponentsRunAsSpecified(c, front);
      var before, after := TrackerTrace(c, front, sink), TrackerTrace(c, es, sink);
      assert FreshMove(c, Run(c, es[..|es| - 1]), es[|es| - 1], sink);
      forall i | 0 <= i < |after|
        ensures Issues.FreshReply(Issues.Run(c.trackers[sink], Issues.START, after[..i]), after[i])
      {
        if i < |before| {
          assert after[..i] == before[..i];
          assert Issues.FreshReply(Issues.Run(c.trackers[sink], Issues.START, before[..i]), before[i]);
        } else {
          assert after[..i] == before;
        }
      }
    }
  }

  /** The milliseconds of all stored submissions, and of those before the last restart. */
  function MillisSeen(es: seq<Event>): set<nat> {
    if es == [] then {}
    else
      var before, e := MillisSeen(es[..|es| - 1]), es[|es| - 1];
      if e.Submitted? && e.disk == SpoolModel.Stored then before + {SpoolModel.Millis(e.now)} else before
  }

  function MillisBeforeRestart(es: seq<Event>): set<nat> {
    if es == [] then {}
    else if es[|es| - 1].Restarted? then MillisSeen(es[..|es| - 1])
    else MillisBeforeRestart(es[..|es| - 1])
  }

  /** No submission is stored in the same millisecond as one before a restart. */
  predicate RestartsAdvance(es: seq<Event>) {
    es != [] ==>
      && RestartsAdvance(es[..|es| - 1])
      && (es[|es| - 1].Submitted? && es[|es| - 1].disk == SpoolModel.Stored ==>
            SpoolModel.Millis(es[|es| - 1].now) !in MillisBeforeRestart(es[..|es| - 1]))
  }

  /** Storing a submission and restarting are what they are for the spool. */
  lemma MoveKinds(c: Config, s: State, e: Event)
    ensures var move := SpoolMove(c, s, e);
            && (move.Some? ==> move.value.now == e.now)
            && (move.Some? && SpoolRuns.Puts(move.value) <==> e.Submitted? && e.disk == SpoolModel.Stored)
            && (move.Some? && move.value.Restarted? <==> e.Restarted?)
  {
  }

  lemma MillisOfMore(trace: seq<SpoolRuns.Event>, move: Option<SpoolRuns.Event>)
    ensures var puts := move.Some? && SpoolRuns.Puts(move.value);
            && SpoolRuns.MillisSeen(Moved(trace, move))
               == (if puts then SpoolRuns.MillisSeen(trace) + {SpoolModel.Millis(move.value.now)} else SpoolRuns.MillisSeen(trace))
            && SpoolRuns.MillisBeforeRestart(Moved(trace, move))
               == (if move.Some? && move.value.Restarted? then SpoolRuns.MillisSeen(trace) else SpoolRuns.MillisBeforeRestart(trace))
            && (SpoolRuns.RestartsAdvance(Moved(trace, move)) <==>
                  SpoolRuns.RestartsAdvance(trace)
                  && (puts ==> SpoolModel.Millis(move.value.now) !in SpoolRuns.MillisBeforeRestart(trace)))
  {
    if move.Some? {
      assert (trace + [move.value])[..|trace|] == trace;
    }
  }

  lemma {:induction false} TraceAdvances(c: Config, es: seq<Event>)
    ensures SpoolRuns.MillisSeen(SpoolTrace(c, es)) == MillisSeen(es)
    ensures SpoolRuns.MillisBeforeRestart(SpoolTrace(c, es)) == MillisBeforeRestart(es)
    ensures RestartsAdvance(es) ==> SpoolRuns.RestartsAdvance(SpoolTrace(c, es))
  {
    if es != [] {
      var front, e := es[..|es| - 1], es[|es| - 1];
      TraceAdvances(c, front);
      MoveKinds(c, Run(c, front), e);
      MillisOfMore(SpoolTrace(c, front), SpoolMove(c, Run(c, front), e));
    }
  }

  // ---------- end to end ----------

  /**
    Through retries, outages, shedding, sweeps and outside closing: on every
    tracker a problem has at most one open issue, and it is the ledger's.
   */
  lemma OneOpenIssuePerProblemAndTracker(c: Config, es: seq<Event>, sink: string)
    requires FreshReplies(c, es) && sink in c.trackers
    ensures sink in Run(c, es).worlds
    ensures LifecycleRuns.OneOpenEach(Run(c, es).worlds[sink])
  {
    ComponentsRunAsSpecified(c, es);
    TrackerRepliesAreFresh(c, es, sink);
    LifecycleRuns.OneOpenIssuePerProblem(c.trackers[sink], TrackerTrace(c, es, sink));
  }

  /** The tracker never refuses to reopen, whatever the others do. */
  predicate ReopensWork(c: Config, es: seq<Event>, sink: string) {
    forall i | 0 <= i < |es| && es[i].Attempted? :: ForTracker(Run(c, es[..i]), sink) ==> es[i].reply.tracker.reopens
  }

  predicate ForTracker(s: State, sink: string) {
    s.line.flight != [] && s.line.flight[0].doc.sink == sink
  }

  lemma {:induction false} TraceReopens(c: Config, es: seq<Event>, sink: string)
    requires ReopensWork(c, es, sink) && sink in c.trackers && c.trackers[sink].supportsReopen
    ensures LifecycleRuns.ReopensWork(c.trackers[sink], TrackerTrace(c, es, sink))
  {
    if es != [] {
      var front := es[..|es| - 1];
      forall i | 0 <= i < |front| && front[i].Attempted?
        ensures ForTracker(Run(c, front[..i]), sink) ==> front[i].reply.tracker.reopens
      {
        assert front[..i] == es[..i] && front[i] == es[i];
      }
      TraceReopens(c, front, sink);
      assert es[|es| - 1].Attempted? ==> (ForTracker(Run(c, es[..|es| - 1]), sink) ==> es[|es| - 1].reply.tracker.reopens);
    }
  }

  /** A tracker that always reopens gets one issue per problem, however many records and attempts there were. */
  lemma OneIssueHoweverManyAttempts(c: Config, es: seq<Event>, sink: string)
    requires FreshReplies(c, es) && sink in c.trackers && c.trackers[sink].supportsReopen && ReopensWork(c, es, sink)
    ensures sink in Run(c, es).worlds
    ensures LifecycleRuns.OneIssueEach(Run(c, es).worlds[sink].tickets)
  {
    ComponentsRunAsSpecified(c, es);
    TrackerRepliesAreFresh(c, es, sink);
    TraceReopens(c, es, sink);
    LifecycleRuns.OneIssueForever(c.trackers[sink], TrackerTrace(c, es, sink));
  }

  /** The books of the spool balance while the exporter runs. */
  lemma NothingIsLostSilently(c: Config, es: seq<Event>)
    ensures SpoolRuns.Balanced(Run(c, es).line)
  {
    ComponentsRunAsSpecified(c, es);
    SpoolRuns.NothingIsLostSilently(c.spool, SpoolTrace(c, es));
  }

  // ---------- what event sinks receive ----------

  /** The spool inside the exporter is in order, and its names are its own. */
  ghost predicate LineIsSound(l: SpoolRuns.Line) {
    SpoolRuns.Sorted(l.spool.dir) && SpoolRuns.Filed(l) && SpoolRuns.Faithful(l) && SpoolRuns.Settled(l)
  }

  lemma RunLineIsSound(c: Config, es: seq<Event>)
    requires RestartsAdvance(es)
    ensures LineIsSound(Run(c, es).line)
  {
    ComponentsRunAsSpecified(c, es);
    TraceAdvances(c, es);
    SpoolRuns.RunIsSorted(c.spool, SpoolTrace(c, es));
    SpoolRuns.RunIsFiled(c.spool, SpoolTrace(c, es));
    SpoolRuns.RunIsFaithful(c.spool, SpoolTrace(c, es));
    SpoolRuns.DeliveredOnce(c.spool, SpoolTrace(c, es));
  }

  /** What the next event puts is filed under a name of its own. */
  predicate FilesUnderUnusedName(s: State, e: Event) {
    e.Submitted? && e.disk == SpoolModel.Stored ==> SpoolModel.NewName(s.line.spool, e.sink, e.now) !in s.line.arrivals
  }

  lemma NextNameIsUnused(c: Config, es: seq<Event>)
    requires es != [] && RestartsAdvance(es)
    ensures RestartsAdvance(es[..|es| - 1]) && FilesUnderUnusedName(Run(c, es[..|es| - 1]), es[|es| - 1])
  {
    var front, e := es[..|es| - 1], es[|es| - 1];
    if e.Submitted? {
      ComponentsRunAsSpecified(c, front);
      TraceAdvances(c, front);
      var trace, move := SpoolTrace(c, front), SpoolMove(c, Run(c, front), e).value;
      SpoolRuns.RunIsFiled(c.spool, trace);
      SpoolRuns.RunIsDated(c.spool, trace);
      SpoolRuns.NewNameIsUnused(Run(c, front).line, trace, move);
    }
  }

  /** A receipt carries the document that was filed under its name, stripped of its key, and the key. */
  ghost predicate Genuine(receipt: Receipt, line: SpoolRuns.Line) {
    && receipt.name in line.arrivals
    && receipt.sink == line.arrivals[receipt.name].sink
    && receipt.payload == Stripped(line.arrivals[receipt.name].payload)
    && receipt.key == Get(line.arrivals[receipt.name].payload, IdempotencyKey)
  }

  ghost predicate AllGenuine(s: State) {
    forall receipt | receipt in s.receipts :: Genuine(receipt, s.line)
  }

  lemma ArrivalsStay(c: Config, s: State, e: Event, n: string)
    requires n in s.line.arrivals && FilesUnderUnusedName(s, e)
    ensures n in Step(c, s, e).line.arrivals && Step(c, s, e).line.arrivals[n] == s.line.arrivals[n]
  {
  }

  lemma StepReceivesGenuine(c: Config, s: State, e: Event)
    requires AllGenuine(s) && SpoolRuns.Faithful(s.line) && FilesUnderUnusedName(s, e)
    ensures AllGenuine(Step(c, s, e))
  {
    var s' := Step(c, s, e);
    forall receipt | receipt in s'.receipts ensures Genuine(receipt, s'.line) {
      if receipt in s.receipts {
        ArrivalsStay(c, s, e, receipt.name);
      } else {
        var r := s.line.flight[0];
        assert r in s.line.flight && SpoolRuns.Genuine(s.line.arrivals, r.name, r.doc);
        ArrivalsStay(c, s, e, r.name);
      }
    }
  }

  /** Whatever reaches an event sink, acknowledged or not, is what was filed, with the key it was filed with. */
  lemma {:induction false} ReceiptsAreGenuine(c: Config, es: seq<Event>)
    requires RestartsAdvance(es)
    ensures AllGenuine(Run(c, es))
  {
    if es != [] {
      var front := es[..|es| - 1];
      NextNameIsUnused(c, es);
      RunLineIsSound(c, front);
      ReceiptsAreGenuine(c, front);
      StepReceivesGenuine(c, Run(c, front), es[|es| - 1]);
    }
  }

  // ---------- at least once, and when more than once ----------

  function Times(receipts: seq<Receipt>, name: string): nat {
    if receipts == [] then 0
    else
      var before := Times(receipts[..|receipts| - 1], name);
      if receipts[|receipts| - 1].name == name then before + 1 else before
  }

  lemma TimesOfOneMore(receipts: seq<Receipt>, receipt: Receipt, name: string)
    ensures Times(receipts + [receipt], name) == Times(receipts, name) + if receipt.name == name then 1 else 0
  {
    assert (receipts + [receipt])[..|receipts|] == receipts;
  }

  /** The last event puts the record of this name in the hands of its event sink. */
  predicate ArrivesLast(c: Config, es: seq<Event>, name: string)
    requires es != []
  {
    var s := Run(c, es[..|es| - 1]);
    Reaches(c, s, es[|es| - 1]) && s.line.flight[0].name == name
  }

  /** Some attempt did. */
  predicate Arrived(c: Config, es: seq<Event>, name: string) {
    es != [] && (Arrived(c, es[..|es| - 1], name) || ArrivesLast(c, es, name))
  }

  /** Some attempt did although its `send` raised: a timeout after the sink had accepted it, say. */
  predicate Unnoticed(c: Config, es: seq<Event>, name: string) {
    es != [] && (Unnoticed(c, es[..|es| - 1], name) || (ArrivesLast(c, es, name) && !es[|es| - 1].reply.sends))
  }

  /** Some attempt did although its `send` raised, and a later attempt did again. */
  predicate ArrivedAgain(c: Config, es: seq<Event>, name: string) {
    es != [] && (ArrivedAgain(c, es[..|es| - 1], name) || (Unnoticed(c, es[..|es| - 1], name) && ArrivesLast(c, es, name)))
  }

  /** How often a record was received, against what became of the attempts made for it. */
  predicate Reconciles(times: nat, sent: bool, arrived: bool, unnoticed: bool, again: bool) {
    (times > 0 <==> arrived) && (times > 1 <==> again) && (unnoticed ==> arrived) && (arrived ==> unnoticed || sent)
  }

  predicate Traced(c: Config, es: seq<Event>, name: string) {
    Reconciles(Times(Run(c, es).receipts, name), name in Run(c, es).line.sent,
               Arrived(c, es, name), Unnoticed(c, es, name), ArrivedAgain(c, es, name))
  }

  lemma ReceiptsAfter(c: Config, s: State, e: Event, name: string)
    ensures var arrives := Reaches(c, s, e) && s.line.flight[0].name == name;
            && Times(Step(c, s, e).receipts, name) == Times(s.receipts, name) + (if arrives then 1 else 0)
            && (arrives && e.reply.sends ==> name in Step(c, s, e).line.sent)
            && (name in s.line.sent ==> name in Step(c, s, e).line.sent)
  {
    if Reaches(c, s, e) {
      TimesOfOneMore(s.receipts, ReceiptOf(s.line.flight[0]), name);
    }
  }

  lemma WhatArrivesWasNotSent(c: Config, es: seq<Event>, name: string)
    requires es != [] && RestartsAdvance(es) && ArrivesLast(c, es, name)
    ensures name !in Run(c, es[..|es| - 1]).line.sent
  {
    NextNameIsUnused(c, es);
    RunLineIsSound(c, es[..|es| - 1]);
    var line := Run(c, es[..|es| - 1]).line;
    assert line.flight[0] in line.flight;
  }

  lemma ArrivedAfter(c: Config, es: seq<Event>, name: string)
    requires es != []
    ensures var front, last := es[..|es| - 1], ArrivesLast(c, es, name);
            && (Arrived(c, es, name) <==> Arrived(c, front, name) || last)
            && (Unnoticed(c, es, name) <==> Unnoticed(c, front, name) || (last && !es[|es| - 1].reply.sends))
            && (ArrivedAgain(c, es, name) <==> ArrivedAgain(c, front, name) || (Unnoticed(c, front, name) && last))
  {
  }

  lemma ReceiptsAfterLast(c: Config, es: seq<Event>, name: string)
    requires es != []
    ensures var s, s', last := Run(c, es[..|es| - 1]), Run(c, es), ArrivesLast(c, es, name);
            && Times(s'.receipts, name) == Times(s.receipts, name) + (if last then 1 else 0)
            && (last && es[|es| - 1].reply.sends ==> name in s'.line.sent)
            && (name in s.line.sent ==> name in s'.line.sent)
  {
    ReceiptsAfter(c, Run(c, es[..|es| - 1]), es[|es| - 1], name);
  }

  lemma ReconcilesNext(times: nat, sent: bool, arrived: bool, unnoticed: bool, again: bool,
                       last: bool, acknowledged: bool, sent': bool)
    requires Reconciles(times, sent, arrived, unnoticed, again)
    requires (sent ==> sent' && !last) && (last && acknowledged ==> sent')
    ensures Reconciles(times + if last then 1 else 0, sent', arrived || last,
                       unnoticed || (last && !acknowledged), again || (unnoticed && last))
  {
  }

  lemma StepIsTraced(c: Config, es: seq<Event>, name: string)
    requires es != [] && RestartsAdvance(es) && Traced(c, es[..|es| - 1], name)
    ensures Traced(c, es, name)
  {
    var front, last := es[..|es| - 1], ArrivesLast(c, es, name);
    ReceiptsAfterLast(c, es, name);
    if last {
      WhatArrivesWasNotSent(c, es, name);
    }
    ReconcilesNext(Times(Run(c, front).receipts, name), name in Run(c, front).line.sent, Arrived(c, front, name),
                   Unnoticed(c, front, name), ArrivedAgain(c, front, name), last, last && es[|es| - 1].reply.sends,
                   name in Run(c, es).line.sent);
    ArrivedAfter(c, es, name);
  }

  lemma {:induction false} RunIsTraced(c: Config, es: seq<Event>, name: string)
    requires RestartsAdvance(es)
    ensures Traced(c, es, name)
  {
    if es != [] {
      NextNameIsUnused(c, es);
      RunIsTraced(c, es[..|es| - 1], name);
      StepIsTraced(c, es, name);
    }
  }

  /** A record is received more than once exactly when an attempt arrived and raised, and a later attempt arrived too. */
  lemma ReceivedAgainExactlyWhen(c: Config, es: seq<Event>, name: string)
    requires RestartsAdvance(es)
    ensures Times(Run(c, es).receipts, name) > 1 <==> ArrivedAgain(c, es, name)
  {
    RunIsTraced(c, es, name);
  }

  lemma RunOfOneMore(c: Config, es: seq<Event>, e: Event)
    ensures Run(c, es + [e]) == Step(c, Run(c, es), e)
  {
    assert (es + [e])[..|es|] == es;
  }

  /** Filed, listed and attempted, the sink accepts and then fails to say so. */
  function Ambiguous(sink: string, p: Proposal, consent: Consent, tracker: Issues.Replies): seq<Event> {
    [Submitted(0.0, sink, p, consent, 10, SpoolModel.Stored)] + [Listed(0.0)]
    + [Attempted(0.0, Reply(false, true, tracker, 0.0, 10, true))]
  }

  lemma AfterFiling(c: Config, sink: string, p: Proposal, consent: Consent)
    ensures var s := Run(c, [Submitted(0.0, sink, p, consent, 10, SpoolModel.Stored)] + [Listed(0.0)]);
            && s.receipts == []
            && s.line == SpoolRuns.Step(c.spool, SpoolRuns.Step(c.spool, SpoolRuns.IDLE,
                           SpoolRuns.Submitted(0.0, sink, ExportDocument(c, sink, p, consent), 10, SpoolModel.Stored)), SpoolRuns.Listed(0.0))
  {
    var e := Submitted(0.0, sink, p, consent, 10, SpoolModel.Stored);
    RunOfOneMore(c, [], e);
    assert [] + [e] == [e];
    RunOfOneMore(c, [e], Listed(0.0));
  }

  lemma TimeoutAfterAcceptance(c: Config, s: State, tracker: Issues.Replies)
    requires s.line.flight != [] && s.line.flight[0].doc.sink in c.eventSinks
    ensures var s' := Step(c, s, Attempted(0.0, Reply(false, true, tracker, 0.0, 10, true)));
            && s'.receipts == s.receipts + [ReceiptOf(s.line.flight[0])]
            && s'.line == SpoolRuns.Step(c.spool, s.line, SpoolRuns.Failed(0.0, 0.0, 10, true))
  {
  }

  lemma AfterAmbiguousFailure(c: Config, sink: string, p: Proposal, consent: Consent, tracker: Issues.Replies)
    requires c.spool == SpoolModel.Config(100, 100.0, 2.0) && sink in c.eventSinks
    ensures var s := Run(c, Ambiguous(sink, p, consent, tracker) + [Listed(1.0)]);
            && |s.receipts| == 1 && |s.line.flight| == 1 && s.line.flight[0].doc.sink == sink
            && ReceiptOf(s.line.flight[0]) == s.receipts[0]
  {
    var filed := [Submitted(0.0, sink, p, consent, 10, SpoolModel.Stored)] + [Listed(0.0)];
    AfterFiling(c, sink, p, consent);
    SpoolRuns.FailedAndDueAgain(c.spool, sink, ExportDocument(c, sink, p, consent));
    TimeoutAfterAcceptance(c, Run(c, filed), tracker);
    RunOfOneMore(c, filed, Attempted(0.0, Reply(false, true, tracker, 0.0, 10, true)));
    RunOfOneMore(c, Ambiguous(sink, p, consent, tracker), Listed(1.0));
  }

  /** The failing case: a send that times out after it was accepted is sent again, with the same key and payload. */
  lemma AmbiguousFailureIsSentAgain(c: Config, sink: string, p: Proposal, consent: Consent, tracker: Issues.Replies)
    requires c.spool == SpoolModel.Config(100, 100.0, 2.0) && sink in c.eventSinks
    ensures var r := Run(c, Ambiguous(sink, p, consent, tracker) + [Listed(1.0)]
                            + [Attempted(1.0, Reply(true, true, tracker, 0.0, 10, true))]).receipts;
            |r| == 2 && r[0] == r[1]
  {
    AfterAmbiguousFailure(c, sink, p, consent, tracker);
    RunOfOneMore(c, Ambiguous(sink, p, consent, tracker) + [Listed(1.0)],
                 Attempted(1.0, Reply(true, true, tracker, 0.0, 10, true)));
  }

  lemma SentAfter(c: Config, s: State, e: Event, name: string)
    requires SpoolRuns.Faithful(s.line) && name in Step(c, s, e).line.sent && name !in s.line.sent
    ensures name in s.line.arrivals && Step(c, s, e).line.arrivals == s.line.arrivals
    ensures s.line.arrivals[name].sink in c.eventSinks ==> Reaches(c, s, e) && s.line.flight[0].name == name
  {
    assert s.line.flight[0] in s.line.flight && SpoolRuns.Genuine(s.line.arrivals, name, s.line.flight[0].doc);
  }

  /** Nothing is taken off the spool as delivered that its event sink did not receive. */
  lemma {:induction false} DeliveredIsReceived(c: Config, es: seq<Event>, name: string)
    requires RestartsAdvance(es) && name in Run(c, es).line.sent
    ensures name in Run(c, es).line.arrivals
    ensures Run(c, es).line.arrivals[name].sink in c.eventSinks ==> Times(Run(c, es).receipts, name) > 0
  {
    RunLineIsSound(c, es);
    if es != [] {
      var front, e := es[..|es| - 1], es[|es| - 1];
      var s := Run(c, front);
      NextNameIsUnused(c, es);
      RunLineIsSound(c, front);
      ReceiptsAfter(c, s, e, name);
      if name in s.line.sent {
        DeliveredIsReceived(c, front, name);
        ArrivalsStay(c, s, e, name);
      } else {
        SentAfter(c, s, e, name);
      }
    }
  }

  // ---------- keys, from submission to the sinks ----------

  predicate Files(e: Event, sink: string) {
    e.Submitted? && e.disk == SpoolModel.Stored && e.sink == sink
  }

  /** An arrival is what one submission filed under the number it took from its process. */
  ghost predicate FiledAt(c: Config, es: seq<Event>, i: nat, a: SpoolRuns.Arrival) {
    && i < |es| && Files(es[i], a.sink) && a.payload == ExportDocument(c, a.sink, es[i].p, es[i].consent)
    && a.process == Run(c, es[..i]).line.process && a.sequence == Run(c, es[..i]).line.spool.sequence + 1
  }

  ghost predicate Sourced(c: Config, es: seq<Event>) {
    forall n | n in Run(c, es).line.arrivals :: exists i: nat :: FiledAt(c, es, i, Run(c, es).line.arrivals[n])
  }

  /** A step adds at most the arrival it files itself. */
  lemma ArrivalAfter(c: Config, s: State, e: Event, n: string)
    requires n in Step(c, s, e).line.arrivals
    ensures var a := Step(c, s, e).line.arrivals[n];
            || (n in s.line.arrivals && s.line.arrivals[n] == a)
            || (Files(e, a.sink) && a.payload == ExportDocument(c, a.sink, e.p, e.consent)
                && a.process == s.line.process && a.sequence == s.line.spool.sequence + 1)
  {
  }

  lemma FiledBefore(c: Config, es: seq<Event>, i: nat, a: SpoolRuns.Arrival)
    requires es != [] && FiledAt(c, es[..|es| - 1], i, a)
    ensures FiledAt(c, es, i, a)
  {
    assert es[..|es| - 1][..i] == es[..i];
  }

  lemma {:induction false} ArrivalsAreSourced(c: Config, es: seq<Event>)
    ensures Sourced(c, es)
  {
    if es != [] {
      var front, e := es[..|es| - 1], es[|es| - 1];
      ArrivalsAreSourced(c, front);
      var before, after := Run(c, front).line.arrivals, Run(c, es).line.arrivals;
      forall n | n in after ensures exists i: nat :: FiledAt(c, es, i, after[n]) {
        ArrivalAfter(c, Run(c, front), e, n);
        if n in before && after[n] == before[n] {
          var i: nat :| FiledAt(c, front, i, before[n]);
          FiledBefore(c, es, i, after[n]);
        } else {
          assert FiledAt(c, es, |es| - 1, after[n]);
        }
      }
    }
  }

  function KeyFiled(c: Config, e: Event): Value
    requires e.Submitted?
  {
    Get(ExportDocument(c, e.sink, e.p, e.consent), IdempotencyKey)
  }

  /** No two proposals filed for a sink have the same idempotency key. */
  ghost predicate KeysDiffer(c: Config, es: seq<Event>, sink: string) {
    forall i, j | 0 <= i < j < |es| && Files(es[i], sink) && Files(es[j], sink) :: KeyFiled(c, es[i]) != KeyFiled(c, es[j])
  }

  lemma OriginOf(c: Config, es: seq<Event>, receipt: Receipt) returns (i: nat)
    requires RestartsAdvance(es) && receipt in Run(c, es).receipts
    ensures Genuine(receipt, Run(c, es).line) && FiledAt(c, es, i, Run(c, es).line.arrivals[receipt.name])
    ensures receipt.sink == es[i].sink && receipt.key == KeyFiled(c, es[i])
  {
    ReceiptsAreGenuine(c, es);
    ArrivalsAreSourced(c, es);
    i :| FiledAt(c, es, i, Run(c, es).line.arrivals[receipt.name]);
  }

  /** Arrivals filed by one submission are one arrival. */
  lemma OneArrivalEach(c: Config, es: seq<Event>, i: nat, m: string, n: string)
    requires RestartsAdvance(es) && m in Run(c, es).line.arrivals && n in Run(c, es).line.arrivals
    requires FiledAt(c, es, i, Run(c, es).line.arrivals[m]) && FiledAt(c, es, i, Run(c, es).line.arrivals[n])
    ensures m == n
  {
    RunLineIsSound(c, es);
  }

  /**
    A key identifies its record: what a sink receives twice under one key is one record with one
    payload, so a receiver that drops repeated keys loses nothing and keeps each record once.
   */
  lemma KeysIdentifyRecords(c: Config, es: seq<Event>, sink: string, a: Receipt, b: Receipt)
    requires RestartsAdvance(es) && KeysDiffer(c, es, sink)
    requires a in Run(c, es).receipts && b in Run(c, es).receipts && a.sink == sink && b.sink == sink
    ensures a.key == b.key ==> a == b
  {
    if a.key == b.key {
      var i := OriginOf(c, es, a);
      var j := OriginOf(c, es, b);
      assert i == j;
      OneArrivalEach(c, es, i, a.name, b.name);
    }
  }

  // ---------- non-interference ----------

  /** The workload was asked and agreed, or there is nobody to ask. */
  predicate Consented(consent: Consent) {
    consent.NoProvider? || (consent.Answered? && consent.permits)
  }

  /** The same event, except that a proposal without consent may say something else. */
  ghost predicate SameButContent(e: Event, f: Event) {
    e == f ||
    (e.Submitted? && f.Submitted?
     && e.now == f.now && e.sink == f.sink && e.consent == f.consent && e.bytes == f.bytes && e.disk == f.disk
     && !Consented(e.consent) && AgreeOnMetadata(e.p, f.p)
     && ProblemKeyText(e.p) == ProblemKeyText(f.p))
  }

  ghost predicate SameButContents(es: seq<Event>, fs: seq<Event>) {
    |es| == |fs| && forall i | 0 <= i < |es| :: SameButContent(es[i], fs[i])
  }

  lemma SameDocument(c: Config, e: Event, f: Event)
    requires e.Submitted? && f.Submitted? && SameButContent(e, f)
    ensures ExportDocument(c, e.sink, e.p, e.consent) == ExportDocument(c, f.sink, f.p, f.consent)
  {
    if e != f {
      var requested := LevelFor(c, e.sink);
      ContentNeedsConsent(requested, false);
      assert HidesContent(EffectiveLevel(requested, false));
    }
  }

  lemma SameMoves(c: Config, s: State, e: Event, f: Event)
    requires SameButContent(e, f)
    ensures SpoolMove(c, s, e) == SpoolMove(c, s, f)
    ensures forall sink :: TrackerMove(c, s, e, sink) == TrackerMove(c, s, f, sink)
    ensures Reaches(c, s, e) == Reaches(c, s, f)
  {
    if e != f {
      SameDocument(c, e, f);
    }
  }

  lemma SameStep(c: Config, s: State, e: Event, f: Event)
    requires SameButContent(e, f)
    ensures Step(c, s, e) == Step(c, s, f)
  {
    SameMoves(c, s, e, f);
    assert Step(c, s, e).worlds == Step(c, s, f).worlds;
  }

  /**
    Without consent, nothing a workload's logs say can be told from outside:
    runs that differ only there leave the same files, the same receipts and the
    same tracker operations.
   */
  lemma {:induction false} UnconsentedContentLeavesNoTrace(c: Config, es: seq<Event>, fs: seq<Event>)
    requires SameButContents(es, fs)
    ensures Run(c, es) == Run(c, fs)
  {
    if es != [] {
      UnconsentedContentLeavesNoTrace(c, es[..|es| - 1], fs[..|fs| - 1]);
      SameStep(c, Run(c, es[..|es| - 1]), es[|es| - 1], fs[|fs| - 1]);
    }
  }
}
