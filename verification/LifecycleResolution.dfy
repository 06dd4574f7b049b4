/** When issues are closed, when an occurrence keeps one open, and what dry run leaves alone. */
module LifecycleResolution {
  import opened Basics
  import opened LifecycleModel
  import opened LifecycleRuns

  /** What a sweep leaves for the next one at the same time: the refused closings. */
  lemma ClosedKeysAfterSweep(c: Config, w: World, now: real, refused: set<Ref>)
    ensures ClosedKeys(c, Sweep(c, w, now, refused), now, {}) == ClosedKeys(c, w, now, {}) - ClosedKeys(c, w, now, refused)
    ensures ClosedKeys(c, w, now, refused) <= ClosedKeys(c, w, now, {})
  {
  }

  lemma ReferencesSplit(ledger: map<Key, Issue>, first: set<Key>, rest: set<Key>)
    ensures ReferencesOf(ledger, first + rest) == ReferencesOf(ledger, first) + ReferencesOf(ledger, rest)
  {
  }

  lemma SweepKeepsReferences(c: Config, w: World, now: real, refused: set<Ref>, keys: set<Key>)
    ensures ReferencesOf(Sweep(c, w, now, refused).ledger, keys) == ReferencesOf(w.ledger, keys)
  {
  }

  lemma ShuttingTwice(tickets: map<Ref, Ticket>, a: set<Ref>, b: set<Ref>)
    ensures Shut(Shut(tickets, a), b) == Shut(tickets, a + b)
  {
  }

  lemma SweepingAgainLedger(c: Config, w: World, now: real, refused: set<Ref>)
    ensures Sweep(c, Sweep(c, w, now, refused), now, {}).ledger == Sweep(c, w, now, {}).ledger
  {
    ClosedKeysAfterSweep(c, w, now, refused);
  }

  lemma SweepingAgainTickets(c: Config, w: World, now: real, refused: set<Ref>)
    ensures Sweep(c, Sweep(c, w, now, refused), now, {}).tickets == Sweep(c, w, now, {}).tickets
  {
    ClosedKeysAfterSweep(c, w, now, refused);
    var first := ClosedKeys(c, w, now, refused);
    var rest := ClosedKeys(c, w, now, {}) - first;
    assert first + rest == ClosedKeys(c, w, now, {});
    ReferencesSplit(w.ledger, first, rest);
    SweepKeepsReferences(c, w, now, refused, rest);
    ShuttingTwice(w.tickets, ReferencesOf(w.ledger, first), ReferencesOf(w.ledger, rest));
  }

  /** A closing that the tracker refused is made up by the next sweep, and nothing is closed twice. */
  lemma SweepingAgainFinishesTheJob(c: Config, w: World, now: real, refused: set<Ref>)
    ensures Sweep(c, Sweep(c, w, now, refused), now, {}) == Sweep(c, w, now, {})
    ensures ClosedKeys(c, Sweep(c, w, now, {}), now, {}) == {}
  {
    SweepingAgainLedger(c, w, now, refused);
    SweepingAgainTickets(c, w, now, refused);
    ClosedKeysAfterSweep(c, w, now, refused);
    ClosedKeysAfterSweep(c, w, now, {});
  }

  /** Not heard of for this long; without a usable time, nothing was posted for this long. */
  predicate QuietFor(issue: Issue, window: real, now: real) {
    match issue.lastSeen
    case At(time) => time + window <= now
    case Missing => issue.lastCommentAt + window <= now
    case Garbled(_) => issue.lastCommentAt + window <= now
  }

  /** In a linked world the sweep closes an issue's ticket along with the issue, and no other ticket. */
  lemma SweepClosesItsTickets(c: Config, w: World, now: real, refused: set<Ref>, t: Ref)
    requires InStep(w) && t in w.tickets
    ensures var w' := Sweep(c, w, now, refused); var k := w.tickets[t].problem;
            && t in w'.tickets && w'.tickets[t].problem == k
            && (w.tickets[t].open && !w'.tickets[t].open <==>
                  && w.tickets[t].open && !c.dryRun && t !in refused && QuietFor(w.ledger[k], c.resolveAfter, now))
            && (w.tickets[t].open && !w'.tickets[t].open ==>
                  k in w'.ledger && w'.ledger[k].status == Resolved)
  {
    var k := w.tickets[t].problem;
    if w.tickets[t].open {
      assert w.ledger[k].reference == t;
      if k in ClosedKeys(c, w, now, refused) {
      }
    }
  }

  /** The tracker is asked to revive the old issue, and does. */
  predicate Revives(c: Config, w: World, r: Record, now: real, replies: Replies) {
    && Tracked(c, r) && !c.dryRun && c.supportsReopen && replies.reopens
    && r.problemKey in w.ledger
    && (var issue := w.ledger[r.problemKey];
        || issue.status == Resolved
        || (WorthSaying(c, issue, r, now) && FoundClosed(w, issue.reference, replies)))
  }

  lemma RevivesExactlyWhen(c: Config, w: World, r: Record, now: real, replies: Replies)
    requires InStep(w)
    ensures Decide(c, w, r, now, replies).Revive? <==> Revives(c, w, r, now, replies)
  {
  }

  /**
    A handled occurrence leaves its problem open, with the occurrence's time, tally and cause stored, except
    that reviving the old issue keeps all the old ones, a quiet note keeps the announced cause, a missing
    time or cause never replaces one, and a quiet note of no occurrences changes no tally. The issue is
    dated when something was posted on it, and only then; and reviving it, or opening another, leaves it
    open on the tracker.
   */
  lemma OccurrenceIsRemembered(c: Config, w: World, r: Record, now: real, replies: Replies)
    requires InStep(w) && FreshReply(w, Handled(r, now, replies))
    requires Tracked(c, r) && !c.dryRun && !Fails(c, w, Handled(r, now, replies))
    ensures var w', was := Step(c, w, Handled(r, now, replies)), Lookup(w, r.problemKey);
            var revives, renews, comments := Revives(c, w, r, now, replies), NeedsIssue(c, w, r, now, replies),
                                             NeedsComment(c, w, r, now, replies);
            && r.problemKey in w'.ledger
            && var issue := w'.ledger[r.problemKey];
            && issue.status == Open
            && issue.lastSeen == (if revives || (r.lastSeen.Missing? && !renews) then was.lastSeen else r.lastSeen)
            && issue.reported
               == (if revives || (r.totalOccurrences == 0 && !renews && !comments) then was.reported else r.totalOccurrences)
            && issue.lastRootCause == (if renews || (comments && r.rootCause != "") then r.rootCause else was.lastRootCause)
            && issue.lastCommentAt == (if revives || renews || comments then now else was.lastCommentAt)
            && (!renews ==> issue.reference == was.reference)
            && (renews ==> replies.created == Some(issue.reference))
            && issue.reference in w'.tickets
            && (if revives || renews then w'.tickets[issue.reference] == Ticket(r.problemKey, true) else w'.tickets == w.tickets)
  {
    RevivesExactlyWhen(c, w, r, now, replies);
    DecisionsAreJustified(c, w, r, now, replies);
  }

  // ---------- how long an issue stays open ----------

  /** The sweep finds the issue too old, and the tracker closes it. */
  predicate ClosedBy(c: Config, issue: Issue, e: Event) {
    e.Swept? && QuietFor(issue, c.resolveAfter, e.now) && issue.reference !in e.refused
  }

  predicate SomeSweepCloses(c: Config, issue: Issue, es: seq<Event>) {
    exists i | 0 <= i < |es| :: ClosedBy(c, issue, es[i])
  }

  predicate NotHandled(es: seq<Event>, k: Key) {
    forall i | 0 <= i < |es| && es[i].Handled? :: es[i].r.problemKey != k
  }

  lemma OtherEventsLeaveIssue(c: Config, w: World, e: Event, k: Key)
    requires InStep(w) && FreshReply(w, e) && k in w.ledger && !c.dryRun
    requires e.Handled? ==> e.r.problemKey != k
    ensures var w' := Step(c, w, e);
            && InStep(w') && k in w'.ledger
            && (w.ledger[k].status == Open && ClosedBy(c, w.ledger[k], e) ==> w'.ledger[k] == Retire(w.ledger[k]))
            && (!(w.ledger[k].status == Open && ClosedBy(c, w.ledger[k], e)) ==> w'.ledger[k] == w.ledger[k])
  {
    StepKeepsLinks(c, w, e);
    if e.Handled? {
      OthersUntouched(c, w, e.r, e.now, e.replies, k);
    }
  }

  lemma SomeSweepClosesBefore(c: Config, issue: Issue, es: seq<Event>)
    requires es != []
    ensures SomeSweepCloses(c, issue, es) <==> SomeSweepCloses(c, issue, es[..|es| - 1]) || ClosedBy(c, issue, es[|es| - 1])
  {
    var front := es[..|es| - 1];
    if i :| 0 <= i < |front| && ClosedBy(c, issue, front[i]) {
      assert ClosedBy(c, issue, es[i]);
    }
  }

  /** Until its problem is seen again, an open issue is closed exactly by the sweeps that find it too old. */
  lemma {:induction false} ClosedExactlyWhenStale(c: Config, w: World, es: seq<Event>, k: Key)
    requires InStep(w) && FreshReplies(c, w, es) && NotHandled(es, k) && !c.dryRun
    requires k in w.ledger && w.ledger[k].status == Open
    ensures var w' := Run(c, w, es);
            && InStep(w') && k in w'.ledger
            && w'.ledger[k] == if SomeSweepCloses(c, w.ledger[k], es) then Retire(w.ledger[k]) else w.ledger[k]
  {
    if es != [] {
      var front, last := es[..|es| - 1], es[|es| - 1];
      PrefixFreshReplies(c, w, es);
      ClosedExactlyWhenStale(c, w, front, k);
      OtherEventsLeaveIssue(c, Run(c, w, front), last, k);
      SomeSweepClosesBefore(c, w.ledger[k], es);
    }
  }

  predicate SweptWithin(c: Config, es: seq<Event>, time: real) {
    forall i | 0 <= i < |es| && es[i].Swept? :: es[i].now - time < c.resolveAfter
  }

  /** The time by which sweeps judge the issue from then on. */
  function JudgedBy(c: Config, w: World, r: Record, now: real, replies: Replies): real {
    var was, revives, renews := Lookup(w, r.problemKey), Revives(c, w, r, now, replies), NeedsIssue(c, w, r, now, replies);
    if r.lastSeen.At? && !revives then r.lastSeen.time
    else if was.lastSeen.At? && (revives || (r.lastSeen.Missing? && !renews)) then was.lastSeen.time
    else if revives || renews || NeedsComment(c, w, r, now, replies) then now
    else was.lastCommentAt
  }

  /** When the occurrence happened, as far as the node can tell. */
  function OccurredAt(r: Record, now: real): real {
    if r.lastSeen.At? then r.lastSeen.time else now
  }

  /** Some sweep comes a window or more after this time, and the tracker lets it close the issue. */
  predicate SweptAfter(c: Config, es: seq<Event>, time: real, reference: Ref) {
    exists i | 0 <= i < |es| :: es[i].Swept? && time + c.resolveAfter <= es[i].now && reference !in es[i].refused
  }

  lemma ClosesExactlyAfter(c: Config, issue: Issue, es: seq<Event>, time: real)
    requires time == if issue.lastSeen.At? then issue.lastSeen.time else issue.lastCommentAt
    ensures SomeSweepCloses(c, issue, es) <==> SweptAfter(c, es, time, issue.reference)
  {
    if i :| 0 <= i < |es| && ClosedBy(c, issue, es[i]) {
      assert es[i].Swept? && time + c.resolveAfter <= es[i].now && issue.reference !in es[i].refused;
    }
    if i :| 0 <= i < |es| && es[i].Swept? && time + c.resolveAfter <= es[i].now && issue.reference !in es[i].refused {
      assert ClosedBy(c, issue, es[i]);
    }
  }

  /** Until its problem is seen again, the issue of an occurrence stays open exactly until a sweep a window later. */
  lemma StaysOpenExactlyWhen(c: Config, w: World, r: Record, now: real, replies: Replies, es: seq<Event>)
    requires InStep(w) && FreshReply(w, Handled(r, now, replies))
    requires Tracked(c, r) && !c.dryRun && !Fails(c, w, Handled(r, now, replies))
    requires FreshReplies(c, Step(c, w, Handled(r, now, replies)), es) && NotHandled(es, r.problemKey)
    ensures var k, w1, w' := r.problemKey, Step(c, w, Handled(r, now, replies)), Run(c, Step(c, w, Handled(r, now, replies)), es);
            && k in w1.ledger && k in w'.ledger
            && (w'.ledger[k].status == Open <==> !SweptAfter(c, es, JudgedBy(c, w, r, now, replies), w1.ledger[k].reference))
  {
    var w1 := Step(c, w, Handled(r, now, replies));
    OccurrenceIsRemembered(c, w, r, now, replies);
    StepKeepsLinks(c, w, Handled(r, now, replies));
    ClosedExactlyWhenStale(c, w1, es, r.problemKey);
    ClosesExactlyAfter(c, w1.ledger[r.problemKey], es, JudgedBy(c, w, r, now, replies));
  }

  /**
    While every sweep comes within the window of an occurrence and the problem is not seen again, its
    issue should stay open. It does if and only if the issue was not left with an older time that one of
    the sweeps finds too old: by reviving, or by noting an occurrence that has no usable time itself.
   */
  lemma RecentOccurrenceKeepsIssueOpen(c: Config, w: World, r: Record, now: real, replies: Replies, es: seq<Event>)
    requires InStep(w) && FreshReply(w, Handled(r, now, replies))
    requires Tracked(c, r) && !c.dryRun && !Fails(c, w, Handled(r, now, replies))
    requires FreshReplies(c, Step(c, w, Handled(r, now, replies)), es) && NotHandled(es, r.problemKey)
    requires SweptWithin(c, es, OccurredAt(r, now))
    ensures var k, w1, w' := r.problemKey, Step(c, w, Handled(r, now, replies)), Run(c, Step(c, w, Handled(r, now, replies)), es);
            var time := JudgedBy(c, w, r, now, replies);
            && k in w1.ledger && k in w'.ledger
            && (w'.ledger[k].status == Open <==>
                  !(time < OccurredAt(r, now) && SweptAfter(c, es, time, w1.ledger[k].reference)))
            && (time < OccurredAt(r, now) ==> Revives(c, w, r, now, replies) || !r.lastSeen.At?)
  {
    StaysOpenExactlyWhen(c, w, r, now, replies, es);
  }

  lemma RunOfOneMore(c: Config, w: World, es: seq<Event>, e: Event)
    ensures Run(c, w, es + [e]) == Step(c, Run(c, w, es), e)
  {
    assert (es + [e])[..|es|] == es;
  }

  /** An issue opened at time zero and closed by a sweep after a day. */
  lemma OpenedAndClosed(c: Config, r: Record, replies: Replies)
    requires c == Config(AtLeast(High), 3600.0, 86400.0, false, true)
    requires r == Record(High, "p", At(0.0), "oom", 1) && replies == Replies(Some("7"), true, true, true, true)
    ensures var w := Run(c, START, [Handled(r, 0.0, replies)] + [Swept(86400.0, {})]);
            && w.ledger == map["p" := Issue("7", Resolved, 0.0, At(0.0), "oom", 1, [Created("7"), Closed])]
            && w.tickets == map["7" := Ticket("p", false)]
  {
    var first, sweep := Handled(r, 0.0, replies), Swept(86400.0, {});
    assert [first][..0] == [] && Run(c, START, [first]) == Step(c, START, first);
    assert Decide(c, START, r, 0.0, replies) == OpenIssue("7", false);
    var w := Step(c, START, first);
    assert [] + [Created("7")] == [Created("7")];
    assert w.ledger == map["p" := Issue("7", Open, 0.0, At(0.0), "oom", 1, [Created("7")])];
    assert [Created("7")] + [Closed] == [Created("7"), Closed];
    assert ClosedKeys(c, w, 86400.0, {}) == {"p"};
    RunOfOneMore(c, START, [first], sweep);
  }

  /** The failing case, from the start: opened, closed after a day, seen again, reopened, and closed at the same instant. */
  lemma RevivedIssueIsClosedAtOnce()
    ensures var c := Config(AtLeast(High), 3600.0, 86400.0, false, true);
            var replies := Replies(Some("7"), true, true, true, true);
            var first, again := Record(High, "p", At(0.0), "oom", 1), Record(High, "p", At(100000.0), "oom", 2);
            var es := [Handled(first, 0.0, replies)] + [Swept(86400.0, {})] + [Handled(again, 100000.0, replies)];
            var w, w' := Run(c, START, es), Run(c, START, es + [Swept(100000.0, {})]);
            && "p" in w.ledger && w.ledger["p"].status == Open && "7" in w.tickets && w.tickets["7"].open
            && "p" in w'.ledger && w'.ledger["p"].status == Resolved && "7" in w'.tickets && !w'.tickets["7"].open
  {
    var c := Config(AtLeast(High), 3600.0, 86400.0, false, true);
    var replies := Replies(Some("7"), true, true, true, true);
    var first, again := Record(High, "p", At(0.0), "oom", 1), Record(High, "p", At(100000.0), "oom", 2);
    var es := [Handled(first, 0.0, replies)] + [Swept(86400.0, {})];
    OpenedAndClosed(c, first, replies);
    RunOfOneMore(c, START, es, Handled(again, 100000.0, replies));
    var w := Run(c, START, es);
    assert Decide(c, w, again, 100000.0, replies) == Revive;
    var w' := Step(c, w, Handled(again, 100000.0, replies));
    assert ClosedKeys(c, w', 100000.0, {}) == {"p"};
    RunOfOneMore(c, START, es + [Handled(again, 100000.0, replies)], Swept(100000.0, {}));
  }

  /** The tracker has reopened a ticket, though it reported a failure. */
  function HalfReopened(w: World, reference: Ref): World
    requires reference in w.tickets
  {
    w.(tickets := w.tickets[reference := w.tickets[reference].(open := true)])
  }

  /**
    Why a failing operation must have no effect: a reopen that takes effect and then fails is made up
    for by a new issue, and the problem has two open ones.
   */
  lemma HalfDoneReopenOpensASecondIssue(c: Config, w: World, r: Record, now: real, replies: Replies)
    requires InStep(w) && FreshReply(w, Handled(r, now, replies)) && Tracked(c, r) && !c.dryRun
    requires r.problemKey in w.ledger && w.ledger[r.problemKey].status == Resolved
    requires !replies.reopens && replies.created.Some?
    ensures var reference := w.ledger[r.problemKey].reference;
            reference in w.tickets && !OneOpenEach(Step(c, HalfReopened(w, reference), Handled(r, now, replies)))
  {
    var first, second := w.ledger[r.problemKey].reference, replies.created.value;
    var w' := Step(c, HalfReopened(w, first), Handled(r, now, replies));
    assert w'.tickets[first] == Ticket(r.problemKey, true) && w'.tickets[second] == Ticket(r.problemKey, true);
  }

  predicate NodeOnly(es: seq<Event>) {
    forall i | 0 <= i < |es| :: !es[i].ClosedOutside?
  }

  /** In dry run no sequence of occurrences, sweeps and restarts opens, posts on, or closes anything. */
  lemma {:induction false} DryRunTouchesNothing(c: Config, w: World, es: seq<Event>)
    requires c.dryRun && NodeOnly(es)
    ensures Run(c, w, es).tickets == w.tickets && Run(c, w, es).log == w.log
    ensures Run(c, w, es).ledger.Keys == w.ledger.Keys
    ensures forall k | k in w.ledger ::
              Run(c, w, es).ledger[k].status == w.ledger[k].status
              && Run(c, w, es).ledger[k].history == w.ledger[k].history
  {
    if es != [] {
      DryRunTouchesNothing(c, w, es[..|es| - 1]);
      var w1, last := Run(c, w, es[..|es| - 1]), es[|es| - 1];
      if last.Swept? {
        assert ClosedKeys(c, w1, last.now, last.refused) == {};
        assert Sweep(c, w1, last.now, last.refused).tickets == w1.tickets;
      } else if last.Handled? {
        var d := Decide(c, w1, last.r, last.now, last.replies);
        assert !d.Post? && !d.Revive? && !d.OpenIssue?;
        assert w1.log + [] == w1.log;
      }
    }
  }

  function Tally(log: seq<Entry>, deeds: set<Deed>): nat {
    if log == [] then 0
    else
      var before := Tally(log[..|log| - 1], deeds);
      if log[|log| - 1].deed in deeds then before + 1 else before
  }

  lemma TallyOfOneMore(log: seq<Entry>, e: Entry, deeds: set<Deed>)
    ensures Tally(log + [e], deeds) == Tally(log, deeds) + if e.deed in deeds then 1 else 0
  {
    assert (log + [e])[..|log|] == log;
  }

  /** Below-threshold records seen since the last restart. */
  function Ignored(c: Config, es: seq<Event>): nat {
    if es == [] || es[|es| - 1].Restarted? then 0
    else
      var last := es[|es| - 1];
      Ignored(c, es[..|es| - 1])
      + if last.Handled? && !Reaches(last.r.severity, c.minSeverity) then 1 else 0
  }

  /** Problems whose issue an event closes. */
  function NewlyResolved(w: World, w': World): set<Key> {
    set k | k in w.ledger && k in w'.ledger && w.ledger[k].status == Open && w'.ledger[k].status == Resolved
  }

  /** Issues resolved since the last restart, each time counted. */
  function Closings(c: Config, es: seq<Event>): nat {
    if es == [] || es[|es| - 1].Restarted? then 0
    else
      var front := es[..|es| - 1];
      Closings(c, front) + |NewlyResolved(Run(c, START, front), Run(c, START, es))|
  }

  /** The tracker's log as the last restart found it. */
  function LogAtRestart(c: Config, es: seq<Event>): seq<Entry> {
    if es == [] then []
    else if es[|es| - 1].Restarted? then Run(c, START, es).log
    else LogAtRestart(c, es[..|es| - 1])
  }

  ghost predicate Tallied(w: World, found: seq<Entry>, ignored: nat) {
    && w.counts.created + Tally(found, {Opened}) == Tally(w.log, {Opened})
    && w.counts.updated + Tally(found, {Routine, Revised}) == Tally(w.log, {Routine, Revised})
    && w.counts.reopened + Tally(found, {Revived}) == Tally(w.log, {Revived})
    && w.counts.skipped == ignored
  }

  lemma PerformIsTallied(c: Config, w: World, r: Record, now: real, d: Decision, found: seq<Entry>, ignored: nat)
    requires Justified(c, w, r, now, d) && Tallied(w, found, ignored)
    ensures Tallied(Perform(w, r, now, d), found, ignored + if d.BelowThreshold? then 1 else 0)
  {
    OpeningsAreTallied(c, w, r, now, d);
    CommentsAreTallied(c, w, r, now, d);
    RevivalsAreTallied(c, w, r, now, d);
  }

  lemma OpeningsAreTallied(c: Config, w: World, r: Record, now: real, d: Decision)
    requires Justified(c, w, r, now, d)
    ensures Tally(Perform(w, r, now, d).log, {Opened}) == Tally(w.log, {Opened}) + if d.OpenIssue? then 1 else 0
  {
    TallyAfter(c, w, r, now, d, {Opened});
  }

  lemma CommentsAreTallied(c: Config, w: World, r: Record, now: real, d: Decision)
    requires Justified(c, w, r, now, d)
    ensures Tally(Perform(w, r, now, d).log, {Routine, Revised})
         == Tally(w.log, {Routine, Revised}) + if d.Post? then 1 else 0
  {
    TallyAfter(c, w, r, now, d, {Routine, Revised});
  }

  lemma RevivalsAreTallied(c: Config, w: World, r: Record, now: real, d: Decision)
    requires Justified(c, w, r, now, d)
    ensures Tally(Perform(w, r, now, d).log, {Revived}) == Tally(w.log, {Revived}) + if d.Revive? then 1 else 0
  {
    TallyAfter(c, w, r, now, d, {Revived});
  }

  lemma StepIsResolved(c: Config, w: World, e: Event)
    requires !e.Restarted?
    ensures Step(c, w, e).counts.resolved == w.counts.resolved + |NewlyResolved(w, Step(c, w, e))|
  {
    match e
    case Swept(now, refused) => assert NewlyResolved(w, Step(c, w, e)) == ClosedKeys(c, w, now, refused);
    case Handled(r, now, replies) => assert NewlyResolved(w, Step(c, w, e)) == {};
    case ClosedOutside(_, _) => assert NewlyResolved(w, Step(c, w, e)) == {};
    case Restarted(_) =>
  }

  /** Since the last restart, the resolved counter counts the issues that went from open to resolved. */
  lemma {:induction false} ResolvedMatchesTheLedger(c: Config, es: seq<Event>)
    ensures Run(c, START, es).counts.resolved == Closings(c, es)
  {
    if es != [] && !es[|es| - 1].Restarted? {
      ResolvedMatchesTheLedger(c, es[..|es| - 1]);
      StepIsResolved(c, Run(c, START, es[..|es| - 1]), es[|es| - 1]);
    }
  }

  /** Since the last restart, the health counters count what the tracker accepted. */
  lemma {:induction false} CountersMatchTheLog(c: Config, es: seq<Event>)
    requires FreshReplies(c, START, es)
    ensures Tallied(Run(c, START, es), LogAtRestart(c, es), Ignored(c, es))
  {
    if es != [] && !es[|es| - 1].Restarted? {
      var front := es[..|es| - 1];
      PrefixFreshReplies(c, START, es);
      RunKeepsLinks(c, front);
      CountersMatchTheLog(c, front);
      StepIsTallied(c, Run(c, START, front), es[|es| - 1], LogAtRestart(c, front), Ignored(c, front));
    }
  }

  lemma StepIsTallied(c: Config, w: World, e: Event, found: seq<Entry>, ignored: nat)
    requires InStep(w) && FreshReply(w, e) && Tallied(w, found, ignored) && !e.Restarted?
    ensures Tallied(Step(c, w, e), found, ignored + if e.Handled? && !Reaches(e.r.severity, c.minSeverity) then 1 else 0)
  {
    if e.Handled? {
      DecisionsAreJustified(c, w, e.r, e.now, e.replies);
      PerformIsTallied(c, w, e.r, e.now, Decide(c, w, e.r, e.now, e.replies), found, ignored);
    }
  }

  lemma TallyAfter(c: Config, w: World, r: Record, now: real, d: Decision, deeds: set<Deed>)
    requires Justified(c, w, r, now, d) && CrossLinked !in deeds
    ensures Tally(Perform(w, r, now, d).log, deeds)
         == Tally(w.log, deeds)
            + (if d.OpenIssue? && Opened in deeds then 1 else 0)
            + (if d.Revive? && Revived in deeds then 1 else 0)
            + (if d.Post? && d.deed in deeds then 1 else 0)
  {
    var more := Deeds(Lookup(w, r.problemKey), r.problemKey, now, d);
    TallyOfMore(w.log, more, deeds);
  }

  lemma TallyOfMore(log: seq<Entry>, more: seq<Entry>, deeds: set<Deed>)
    requires |more| <= 2 && (|more| == 2 ==> more[1].deed !in deeds)
    ensures Tally(log + more, deeds) == Tally(log, deeds) + if more != [] && more[0].deed in deeds then 1 else 0
  {
    if |more| == 0 {
      assert log + more == log;
    } else if |more| == 1 {
      assert more == [more[0]];
      TallyOfOneMore(log, more[0], deeds);
    } else {
      assert log + more == log + [more[0]] + [more[1]];
      TallyOfOneMore(log, more[0], deeds);
      TallyOfOneMore(log + [more[0]], more[1], deeds);
    }
  }
}
