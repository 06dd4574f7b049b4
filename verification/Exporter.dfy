/** The exporter as one object over its spool and its trackers' lifecycles. */
module ExportService {
  import opened Basics
  import opened Records
  import opened ExporterModel
  import SpoolModel
  import SpoolRuns
  import Disk = SpoolDirectory
  import Issues = LifecycleModel

  /** How the spool's disk treats one sink's copy of a proposal. */
  datatype Storage = Storage(bytes: nat, disk: SpoolModel.Disk)

  /** A proposal handed in, with what the consent lookup and, for each sink, the disk answer. */
  datatype HandIn = HandIn(now: real, p: Proposal, consent: Consent, storage: string -> Storage)

  /** One attempt of a delivery pass: what producers hand in before it, when it is made, and how it ends. */
  datatype Attempt = Attempt(before: seq<HandIn>, now: real, reply: Reply)

  function Filing(sink: string, h: HandIn): Event {
    Submitted(h.now, sink, h.p, h.consent, h.storage(sink).bytes, h.storage(sink).disk)
  }

  /** The run after a proposal was filed once for every sink. */
  function Filed(sinks: seq<string>, history: seq<Event>, h: HandIn): seq<Event> {
    if sinks == [] then history else Filed(sinks[..|sinks| - 1], history, h) + [Filing(sinks[|sinks| - 1], h)]
  }

  function Stored(sinks: seq<string>, h: HandIn): nat {
    if sinks == [] then 0
    else
      var before := Stored(sinks[..|sinks| - 1], h);
      if h.storage(sinks[|sinks| - 1]).disk == SpoolModel.Stored then before + 1 else before
  }

  lemma OneMoreFiled(sinks: seq<string>, i: nat, history: seq<Event>, h: HandIn)
    requires i < |sinks|
    ensures Filed(sinks[..i + 1], history, h) == Filed(sinks[..i], history, h) + [Filing(sinks[i], h)]
    ensures Stored(sinks[..i + 1], h) == Stored(sinks[..i], h) + if h.storage(sinks[i]).disk == SpoolModel.Stored then 1 else 0
  {
    assert sinks[..i + 1][..i] == sinks[..i];
  }

  /** What `submit` returns is how many copies the spool counts as queued. */
  lemma {:induction false} StoredIsQueued(c: Config, sinks: seq<string>, history: seq<Event>, h: HandIn)
    ensures Run(c, Filed(sinks, history, h)).line.spool.queued == Run(c, history).line.spool.queued + Stored(sinks, h)
  {
    if sinks != [] {
      var before := Filed(sinks[..|sinks| - 1], history, h);
      StoredIsQueued(c, sinks[..|sinks| - 1], history, h);
      RunOfOneMore(c, before, Filing(sinks[|sinks| - 1], h));
      FilingCounts(c, Run(c, before), sinks[|sinks| - 1], h);
    }
  }

  lemma FilingCounts(c: Config, s: State, sink: string, h: HandIn)
    ensures Step(c, s, Filing(sink, h)).line.spool.queued
         == s.line.spool.queued + if h.storage(sink).disk == SpoolModel.Stored then 1 else 0
  {
  }

  function AllFiled(sinks: seq<string>, history: seq<Event>, hs: seq<HandIn>): seq<Event> {
    if hs == [] then history else Filed(sinks, AllFiled(sinks, history, hs[..|hs| - 1]), hs[|hs| - 1])
  }

  /** The run after some attempts, with whatever was handed in between them. */
  function After(sinks: seq<string>, history: seq<Event>, attempts: seq<Attempt>): seq<Event> {
    if attempts == [] then history
    else
      var last := attempts[|attempts| - 1];
      AllFiled(sinks, After(sinks, history, attempts[..|attempts| - 1]), last.before) + [Attempted(last.now, last.reply)]
  }

  /** How many of the attempts made after `history` succeed. */
  function Successes(c: Config, sinks: seq<string>, history: seq<Event>, attempts: seq<Attempt>): nat {
    if attempts == [] then 0
    else
      var front, last := attempts[..|attempts| - 1], attempts[|attempts| - 1];
      var before := Successes(c, sinks, history, front);
      if Succeeds(ResultOf(c, Run(c, AllFiled(sinks, After(sinks, history, front), last.before)), last.now, last.reply))
      then before + 1 else before
  }

  lemma OneMoreAttempt(c: Config, sinks: seq<string>, history: seq<Event>, attempts: seq<Attempt>, i: nat)
    requires i < |attempts|
    ensures var before := AllFiled(sinks, After(sinks, history, attempts[..i]), attempts[i].before);
            && After(sinks, history, attempts[..i + 1]) == before + [Attempted(attempts[i].now, attempts[i].reply)]
            && Successes(c, sinks, history, attempts[..i + 1])
               == Successes(c, sinks, history, attempts[..i])
                  + (if Succeeds(ResultOf(c, Run(c, before), attempts[i].now, attempts[i].reply)) then 1 else 0)
  {
    assert attempts[..i + 1][..i] == attempts[..i];
  }

  /** How many of the offered attempts a pass makes: one for each record due, unless it is stopped. */
  function Made(attempts: seq<Attempt>, dir: seq<SpoolModel.File>, now: real): (n: nat)
    ensures n <= |attempts|
  {
    var due := |SpoolModel.Due(dir, now)|;
    if due < |attempts| then due else |attempts|
  }

  /** The names, once each. */
  predicate Lists(names: seq<string>, all: set<string>) {
    && (forall k | k in names :: k in all) && (forall k | k in all :: k in names)
    && (forall i, j | 0 <= i < j < |names| :: names[i] != names[j])
  }

  lemma RunOfOneMore(c: Config, history: seq<Event>, e: Event)
    ensures Run(c, history + [e]) == Step(c, Run(c, history), e)
  {
    assert (history + [e])[..|history|] == history;
  }

  lemma OnlyTheDirectoryIsKept(c: Config, before: seq<Event>, now: real)
    ensures Run(c, before + [Restarted(now)]).line.spool == SpoolModel.EMPTY.(dir := Run(c, before).line.spool.dir)
  {
    RunOfOneMore(c, before, Restarted(now));
    RestartKeepsTheDirectory(c, Run(c, before), now);
  }

  lemma RestartKeepsTheDirectory(c: Config, s: State, now: real)
    ensures Step(c, s, Restarted(now)).line.spool == SpoolModel.EMPTY.(dir := s.line.spool.dir)
  {
  }

  /** A step in which no tracker is involved leaves them all alone. */
  lemma TrackersStay(c: Config, s: State, e: Event)
    requires s.worlds.Keys == c.trackers.Keys
    requires forall sink | sink in c.trackers :: TrackerMove(c, s, e, sink).None?
    ensures Step(c, s, e).worlds == s.worlds
  {
  }

  /** An attempt involves only the tracker the record is for. */
  lemma OneTrackerMoves(c: Config, s: State, now: real, reply: Reply)
    requires s.worlds.Keys == c.trackers.Keys && s.line.flight != []
    requires s.line.flight[0].doc.sink in c.trackers && s.line.flight[0].doc.sink !in c.eventSinks
    ensures var sink := s.line.flight[0].doc.sink;
            var handled := Issues.Handled(ReadRecord(Stripped(s.line.flight[0].doc.payload)), now, reply.tracker);
            Step(c, s, Attempted(now, reply)).worlds
            == s.worlds[sink := Issues.Step(c.trackers[sink], s.worlds[sink], handled)]
  {
  }

  /** What an attempt does to the spool. */
  lemma AttemptMovesSpool(c: Config, s: State, now: real, reply: Reply)
    requires s.line.flight != []
    ensures var r, result, l' := s.line.flight[0], ResultOf(c, s, now, reply), Step(c, s, Attempted(now, reply)).line;
            && l'.flight == s.line.flight[1..]
            && (result.Raised? ==> l'.spool == SpoolModel.Fail(c.spool, s.line.spool, r, now, reply.jitter, reply.bytes, reply.written))
            && (!result.Raised? ==> l'.spool == SpoolModel.Succeed(s.line.spool, r))
  {
  }

  // ---------- sweeping ----------

  /** The trackers swept so far, in the order of their names. */
  ghost predicate SweptUpTo(c: Config, s: State, worlds: map<string, Issues.World>, done: seq<string>, now: real,
                            refused: map<string, set<Issues.Ref>>)
  {
    && s.worlds.Keys == c.trackers.Keys == worlds.Keys
    && (forall k | k in worlds && k !in done :: worlds[k] == s.worlds[k])
    && (forall k | k in worlds && k in done ::
          worlds[k] == Issues.Step(c.trackers[k], s.worlds[k], Issues.Swept(now, Refused(refused, k))))
  }

  lemma NextName(names: seq<string>, all: set<string>, i: nat)
    requires i < |names| && Lists(names, all)
    ensures names[i] in all && names[i] !in names[..i] && names[..i + 1] == names[..i] + [names[i]]
  {
    assert names[i] in names;
  }

  lemma OneMoreSwept(c: Config, s: State, worlds: map<string, Issues.World>, done: seq<string>, k: string, now: real,
                     refused: map<string, set<Issues.Ref>>)
    requires k in c.trackers && k !in done && SweptUpTo(c, s, worlds, done, now, refused)
    ensures k in worlds && k in s.worlds && worlds[k] == s.worlds[k]
    ensures SweptUpTo(c, s, worlds[k := Issues.Sweep(c.trackers[k], worlds[k], now, Refused(refused, k))], done + [k], now, refused)
  {
  }

  lemma OneMoreClosed(c: Config, s: State, done: seq<string>, k: string, now: real, refused: map<string, set<Issues.Ref>>)
    ensures ClosedAmong(c, s, done + [k], now, refused) == ClosedAmong(c, s, done, now, refused) + ClosedOn(c, s, k, now, refused)
  {
    assert (done + [k])[..|done|] == done;
  }

  lemma AllSwept(c: Config, s: State, worlds: map<string, Issues.World>, names: seq<string>, now: real,
                 refused: map<string, set<Issues.Ref>>)
    requires SweptUpTo(c, s, worlds, names, now, refused) && forall k | k in c.trackers :: k in names
    ensures worlds == Step(c, s, Swept(now, refused)).worlds
  {
  }

  lemma SweepLeavesTheSpool(c: Config, s: State, now: real, refused: map<string, set<Issues.Ref>>)
    ensures Step(c, s, Swept(now, refused)).line == s.line
  {
  }

  /** How many issues a sweep closes on one tracker. */
  function ClosedOn(c: Config, s: State, k: string, now: real, refused: map<string, set<Issues.Ref>>): nat {
    if k in c.trackers && k in s.worlds then |Issues.ClosedKeys(c.trackers[k], s.worlds[k], now, Refused(refused, k))| else 0
  }

  /** What a sweep returns is how many issues the trackers' own counters say it resolved. */
  lemma ClosedIsResolved(c: Config, s: State, k: string, now: real, refused: map<string, set<Issues.Ref>>)
    requires k in c.trackers && k in s.worlds
    ensures var s' := Step(c, s, Swept(now, refused));
            k in s'.worlds && s'.worlds[k].counts.resolved == s.worlds[k].counts.resolved + ClosedOn(c, s, k, now, refused)
  {
  }

  function ClosedAmong(c: Config, s: State, names: seq<string>, now: real, refused: map<string, set<Issues.Ref>>): nat {
    if names == [] then 0
    else ClosedAmong(c, s, names[..|names| - 1], now, refused) + ClosedOn(c, s, names[|names| - 1], now, refused)
  }

  class Exporter {
    const config: Config
    const sinkNames: seq<string>
    const trackerNames: seq<string>
    const spool: Disk.Spool
    /** Each tracker with its ledger, as the value its lifecycle maintains. */
    var lifecycles: map<string, Issues.World>
    var submitted: nat
    /** The pass under way and what arrived and left; what event sinks received; all that happened. */
    ghost var line: SpoolRuns.Line
    ghost var receipts: seq<Receipt>
    ghost var history: seq<Event>

    ghost function Now(): State
      reads this
    {
      State(line, lifecycles, receipts)
    }

    /** The objects are in the state the model reaches by what happened. */
    ghost predicate Valid()
      reads this, spool
    {
      && spool.Valid() && spool.config == config.spool && line.spool == spool.Now()
      && lifecycles.Keys == config.trackers.Keys && Lists(trackerNames, config.trackers.Keys)
      && Now() == Run(config, history)
    }

    constructor (config: Config, sinkNames: seq<string>, trackerNames: seq<string>, spool: Disk.Spool)
      requires spool.Valid() && spool.Now() == SpoolModel.EMPTY && spool.config == config.spool
      requires Lists(trackerNames, config.trackers.Keys)
      ensures Valid() && history == [] && submitted == 0
      ensures this.config == config && this.sinkNames == sinkNames && this.trackerNames == trackerNames && this.spool == spool
    {
      this.config, this.sinkNames, this.trackerNames, this.spool := config, sinkNames, trackerNames, spool;
      lifecycles := map name | name in config.trackers :: Issues.START;
      submitted, line, receipts, history := 0, SpoolRuns.IDLE, [], [];
    }

    /** Started again on the directory and the ledgers a run `before` left behind. */
    constructor Resumed(config: Config, sinkNames: seq<string>, trackerNames: seq<string>, spool: Disk.Spool,
                        lifecycles: map<string, Issues.World>, now: real, ghost before: seq<Event>)
      requires spool.Valid() && spool.Now() == SpoolModel.EMPTY.(dir := Run(config, before).line.spool.dir)
      requires spool.config == config.spool && Lists(trackerNames, config.trackers.Keys)
      requires lifecycles == Run(config, before + [Restarted(now)]).worlds
      requires lifecycles.Keys == config.trackers.Keys
      ensures Valid() && history == before + [Restarted(now)] && submitted == 0
      ensures this.config == config && this.sinkNames == sinkNames && this.trackerNames == trackerNames && this.spool == spool
    {
      this.config, this.sinkNames, this.trackerNames, this.spool := config, sinkNames, trackerNames, spool;
      this.lifecycles := lifecycles;
      OnlyTheDirectoryIsKept(config, before, now);
      ghost var s := Run(config, before + [Restarted(now)]);
      submitted, line, receipts, history := 0, s.line, s.receipts, before + [Restarted(now)];
    }

    /** The objects have moved from `s` to where `e` leads; the record of what happened follows. */
    ghost method Happened(s: State, e: Event)
      requires s == Run(config, history)
      requires spool.Valid() && spool.config == config.spool && spool.Now() == Step(config, s, e).line.spool
      requires lifecycles == Step(config, s, e).worlds && lifecycles.Keys == config.trackers.Keys
      requires Lists(trackerNames, config.trackers.Keys)
      modifies this`line, this`receipts, this`history
      ensures Valid() && history == old(history) + [e] && Now() == Step(config, s, e)
    {
      RunOfOneMore(config, history, e);
      Stand(Step(config, s, e), history + [e]);
    }

    /** The record of what happened catches up with the objects. */
    ghost method Stand(s: State, es: seq<Event>)
      requires s == Run(config, es)
      requires spool.Valid() && spool.config == config.spool && spool.Now() == s.line.spool
      requires lifecycles == s.worlds && lifecycles.Keys == config.trackers.Keys
      requires Lists(trackerNames, config.trackers.Keys)
      modifies this`line, this`receipts, this`history
      ensures Valid() && history == es && Now() == s
    {
      line, receipts, history := s.line, s.receipts, es;
    }

    // ---------- submission ----------

    /** File a proposal for every sink, at the level its configuration and the workload's consent allow. */
    method Submit(h: HandIn) returns (queued: nat)
      requires Valid()
      modifies this`submitted, this`line, this`receipts, this`history, spool
      ensures Valid() && history == Filed(sinkNames, old(history), h) && line.flight == old(line.flight)
      ensures queued == Stored(sinkNames, h) && submitted == old(submitted) + queued
    {
      assert sinkNames[..|sinkNames|] == sinkNames;
      queued := FileAll(h);
      submitted := submitted + queued;
    }

    ghost predicate FiledUpTo(i: nat, h: HandIn, was: seq<Event>, queued: nat)
      reads this
    {
      i <= |sinkNames| && history == Filed(sinkNames[..i], was, h) && queued == Stored(sinkNames[..i], h)
    }

    method FileAll(h: HandIn) returns (queued: nat)
      requires Valid()
      modifies this`line, this`receipts, this`history, spool
      ensures Valid() && line.flight == old(line.flight) && FiledUpTo(|sinkNames|, h, old(history), queued)
    {
      queued := 0;
      for i := 0 to |sinkNames|
        invariant Valid() && line.flight == old(line.flight) && FiledUpTo(i, h, old(history), queued)
      {
        queued := FileNext(i, h, queued, old(history));
      }
    }

    method FileNext(i: nat, h: HandIn, queued: nat, ghost was: seq<Event>) returns (queued': nat)
      requires Valid() && i < |sinkNames| && FiledUpTo(i, h, was, queued)
      modifies this`line, this`receipts, this`history, spool
      ensures Valid() && line.flight == old(line.flight) && FiledUpTo(i + 1, h, was, queued')
    {
      OneMoreFiled(sinkNames, i, was, h);
      var stored := SubmitTo(sinkNames[i], h);
      queued' := if stored then queued + 1 else queued;
    }

    method SubmitTo(sink: string, h: HandIn) returns (stored: bool)
      requires Valid()
      modifies this`line, this`receipts, this`history, spool
      ensures Valid() && history == old(history) + [Filing(sink, h)] && line.flight == old(line.flight)
      ensures stored <==> h.storage(sink).disk == SpoolModel.Stored
    {
      ghost var s := Now();
      var requested := if sink in config.levels then config.levels[sink] else Metadata;
      var payload := BuildPayload(h.p, EffectiveLevel(requested, Permits(h.consent)), config.node);
      var key := KeyOf(ProblemKeyText(h.p), TallyOf(Get(payload, TotalOccurrences)));
      var storage := h.storage(sink);
      var path := spool.Put(sink, payload[IdempotencyKey := Text(key)], storage.bytes, h.now, storage.disk);
      TrackersStay(config, s, Filing(sink, h));
      Happened(s, Filing(sink, h));
      stored := path.Some?;
    }

    /** What producers hand in while a delivery pass is under way. */
    method SubmitAll(hs: seq<HandIn>)
      requires Valid()
      modifies this`submitted, this`line, this`receipts, this`history, spool
      ensures Valid() && history == AllFiled(sinkNames, old(history), hs) && line.flight == old(line.flight)
    {
      for i := 0 to |hs|
        invariant Valid() && line.flight == old(line.flight) && history == AllFiled(sinkNames, old(history), hs[..i])
      {
        assert hs[..i + 1][..i] == hs[..i];
        var _ := Submit(hs[i]);
      }
      assert hs[..|hs|] == hs;
    }

    // ---------- delivery ----------

    /** One pass over what is due now; fewer attempts than records means the service was stopped. */
    method DeliverOnce(now: real, attempts: seq<Attempt>) returns (delivered: nat)
      requires Valid()
      modifies this, spool
      ensures Valid()
      ensures var made, listed := attempts[..Made(attempts, old(spool.dir), now)], old(history) + [Listed(now)];
              && history == After(sinkNames, listed, made)
              && delivered == Successes(config, sinkNames, listed, made)
              && line.flight == SpoolModel.Due(old(spool.dir), now)[|made|..]
    {
      ghost var s := Now();
      var records := spool.Due(now);
      TrackersStay(config, s, Listed(now));
      Happened(s, Listed(now));
      ghost var made;
      delivered, made := AttemptAll(records, attempts);
    }

    ghost predicate AttemptedUpTo(i: nat, attempts: seq<Attempt>, listed: seq<Event>, delivered: nat)
      reads this
    {
      && i <= |attempts| && history == After(sinkNames, listed, attempts[..i])
      && delivered == Successes(config, sinkNames, listed, attempts[..i])
    }

    method AttemptAll(records: seq<SpoolModel.Spooled>, attempts: seq<Attempt>) returns (delivered: nat, ghost made: nat)
      requires Underway(0, records, attempts, history, 0)
      modifies this, spool
      ensures Underway(made, records, attempts, old(history), delivered) && (made == |records| || made == |attempts|)
    {
      delivered, made := 0, 0;
      var i := 0;
      while i < |records| && i < |attempts|
        invariant made == i && Underway(i, records, attempts, old(history), delivered)
      {
        delivered := AttemptNext(i, records, attempts, delivered, old(history));
        i, made := i + 1, i + 1;
      }
    }

    /** A pass that has attempted the first `i` of its records. */
    ghost predicate Underway(i: nat, records: seq<SpoolModel.Spooled>, attempts: seq<Attempt>, listed: seq<Event>, delivered: nat)
      reads this, spool
    {
      && Valid() && i <= |records| && line.flight == records[i..]
      && AttemptedUpTo(i, attempts, listed, delivered)
    }

    method AttemptNext(i: nat, records: seq<SpoolModel.Spooled>, attempts: seq<Attempt>, delivered: nat, ghost listed: seq<Event>)
      returns (delivered': nat)
      requires i < |records| && i < |attempts| && Underway(i, records, attempts, listed, delivered)
      modifies this, spool
      ensures Underway(i + 1, records, attempts, listed, delivered')
    {
      OneMoreAttempt(config, sinkNames, listed, attempts, i);
      var ok := DeliverNext(records[i], attempts[i]);
      delivered' := if ok then delivered + 1 else delivered;
    }

    /** The next record of a pass, after whatever is handed in meanwhile. */
    method DeliverNext(spooled: SpoolModel.Spooled, attempt: Attempt) returns (delivered: bool)
      requires Valid() && line.flight != [] && line.flight[0] == spooled
      modifies this, spool
      ensures Valid() && line.flight == old(line.flight)[1..]
      ensures var before := AllFiled(sinkNames, old(history), attempt.before);
              && history == before + [Attempted(attempt.now, attempt.reply)]
              && delivered == Succeeds(ResultOf(config, Run(config, before), attempt.now, attempt.reply))
    {
      SubmitAll(attempt.before);
      delivered := Deliver(spooled, attempt.now, attempt.reply);
    }

    /** One attempt: to an event sink, to an issue lifecycle, or to nobody. */
    method Deliver(spooled: SpoolModel.Spooled, now: real, reply: Reply) returns (delivered: bool)
      requires Valid() && line.flight != [] && line.flight[0] == spooled
      modifies this`lifecycles, this`line, this`receipts, this`history, spool
      ensures Valid() && history == old(history) + [Attempted(now, reply)]
      ensures line.flight == old(line.flight)[1..]
      ensures delivered <==> Succeeds(ResultOf(config, old(Now()), now, reply))
    {
      ghost var s := Now();
      AttemptMovesSpool(config, s, now, reply);
      var result := Send(spooled.doc.sink, spooled.doc.payload - {IdempotencyKey}, now, reply);
      if result.Raised? {
        spool.Fail(spooled, now, reply.jitter, reply.bytes, reply.written);
      } else {
        spool.Succeed(spooled);
      }
      Happened(s, Attempted(now, reply));
      delivered := Succeeds(result);
    }

    method Send(sink: string, payload: Payload, now: real, reply: Reply) returns (result: Result)
      requires line.flight != [] && sink == line.flight[0].doc.sink && payload == Stripped(line.flight[0].doc.payload)
      requires lifecycles.Keys == config.trackers.Keys
      modifies this`lifecycles
      ensures result == ResultOf(config, old(Now()), now, reply)
      ensures lifecycles == Step(config, old(Now()), Attempted(now, reply)).worlds && lifecycles.Keys == config.trackers.Keys
    {
      if sink in config.eventSinks {
        TrackersStay(config, Now(), Attempted(now, reply));
        return if reply.sends then Accepted else Raised;
      } else if sink in lifecycles {
        OneTrackerMoves(config, Now(), now, reply);
        var handled := Handle(sink, ReadRecord(payload), now, reply.tracker);
        return if handled then Handled else Raised;
      } else {
        TrackersStay(config, Now(), Attempted(now, reply));
        return Unknown;
      }
    }

    /** False when the lifecycle raises. */
    method Handle(sink: string, r: Issues.Record, now: real, replies: Issues.Replies) returns (handled: bool)
      requires sink in lifecycles && sink in config.trackers
      modifies this`lifecycles
      ensures lifecycles == old(lifecycles)[sink := Issues.Step(config.trackers[sink], old(lifecycles)[sink], Issues.Handled(r, now, replies))]
      ensures handled <==> !Issues.OutcomeOf(old(lifecycles)[sink], r,
                                             Issues.Decide(config.trackers[sink], old(lifecycles)[sink], r, now, replies)).Raised?
    {
      var world := lifecycles[sink];
      var d := Issues.Decide(config.trackers[sink], world, r, now, replies);
      lifecycles := lifecycles[sink := Issues.Perform(world, r, now, d)];
      handled := !Issues.OutcomeOf(world, r, d).Raised?;
    }

    /** Close issues whose problems have gone quiet, tracker by tracker; returns how many. */
    method SweepResolutions(now: real, refused: map<string, set<Issues.Ref>>) returns (resolved: nat)
      requires Valid()
      modifies this`lifecycles, this`line, this`receipts, this`history
      ensures Valid() && history == old(history) + [Swept(now, refused)]
      ensures resolved == ClosedAmong(config, old(Now()), trackerNames, now, refused)
    {
      ghost var s := Now();
      resolved := SweepAll(now, refused);
      assert trackerNames[..|trackerNames|] == trackerNames;
      AllSwept(config, s, lifecycles, trackerNames, now, refused);
      SweepLeavesTheSpool(config, s, now, refused);
      Happened(s, Swept(now, refused));
    }

    /** The first `i` trackers have been swept since `s`, closing this many issues. */
    ghost predicate SweptSince(s: State, i: nat, now: real, refused: map<string, set<Issues.Ref>>, resolved: nat)
      reads this
    {
      && i <= |trackerNames| && SweptUpTo(config, s, lifecycles, trackerNames[..i], now, refused)
      && resolved == ClosedAmong(config, s, trackerNames[..i], now, refused)
    }

    method SweepAll(now: real, refused: map<string, set<Issues.Ref>>) returns (resolved: nat)
      requires lifecycles.Keys == config.trackers.Keys && Lists(trackerNames, config.trackers.Keys)
      modifies this`lifecycles
      ensures SweptSince(old(Now()), |trackerNames|, now, refused, resolved)
    {
      ghost var s := Now();
      resolved := 0;
      for i := 0 to |trackerNames|
        invariant SweptSince(s, i, now, refused, resolved)
      {
        resolved := SweepNext(i, now, refused, resolved, s);
      }
    }

    method SweepNext(i: nat, now: real, refused: map<string, set<Issues.Ref>>, resolved: nat, ghost s: State)
      returns (resolved': nat)
      requires i < |trackerNames| && Lists(trackerNames, config.trackers.Keys) && SweptSince(s, i, now, refused, resolved)
      modifies this`lifecycles
      ensures SweptSince(s, i + 1, now, refused, resolved')
    {
      var k := trackerNames[i];
      NextName(trackerNames, config.trackers.Keys, i);
      OneMoreSwept(config, s, lifecycles, trackerNames[..i], k, now, refused);
      OneMoreClosed(config, s, trackerNames[..i], k, now, refused);
      resolved' := resolved + |Issues.ClosedKeys(config.trackers[k], lifecycles[k], now, Refused(refused, k))|;
      lifecycles := lifecycles[k := Issues.Sweep(config.trackers[k], lifecycles[k], now, Refused(refused, k))];
    }

    method PurgeExpired(now: real)
      requires Valid()
      modifies this`line, this`receipts, this`history, spool
      ensures Valid() && history == old(history) + [Purged(now)]
    {
      ghost var s := Now();
      TrackersStay(config, s, Purged(now));
      var _ := spool.PurgeExpired(now);
      Happened(s, Purged(now));
    }
  }
}
