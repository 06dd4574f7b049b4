/** Whole-run properties of the issue lifecycle. */
module LifecycleRuns {
  import opened Basics
  import opened LifecycleModel

  // ---------- one open issue per problem ----------

  /** The ledger and the tracker agree about which issue speaks for a problem. */
  ghost predicate InStep(w: World) {
    && (forall k | k in w.ledger ::
          && w.ledger[k].status != Untracked
          && w.ledger[k].reference != ""
          && w.ledger[k].reference in w.tickets
          && w.tickets[w.ledger[k].reference].problem == k)
    && (forall t | t in w.tickets && w.tickets[t].open ::
          && w.tickets[t].problem in w.ledger
          && w.ledger[w.tickets[t].problem].reference == t
          && w.ledger[w.tickets[t].problem].status == Open)
  }

  lemma SweepKeepsLinks(c: Config, w: World, now: real, refused: set<Ref>)
    requires InStep(w)
    ensures InStep(Sweep(c, w, now, refused))
  {
  }

  /** What a decision lets us conclude about the state it was taken in. */
  ghost predicate Justified(c: Config, w: World, r: Record, now: real, d: Decision) {
    && (d.Quiet? || d.Post? || d.Revive? ==> r.problemKey in w.ledger)
    && (d.Post? ==> d.deed == Revised || (d.deed == Routine && w.ledger[r.problemKey].lastCommentAt + c.updateInterval <= now))
    && (d.Revive? || d.OpenIssue? ==>
          forall t | t in w.tickets && w.tickets[t].open :: w.tickets[t].problem != r.problemKey)
    && (d.OpenIssue? ==> d.reference != "" && d.reference !in w.tickets)
  }

  lemma DecisionsAreJustified(c: Config, w: World, r: Record, now: real, replies: Replies)
    requires InStep(w) && FreshReply(w, Handled(r, now, replies))
    ensures Justified(c, w, r, now, Decide(c, w, r, now, replies))
  {
  }

  lemma PerformKeepsLinks(c: Config, w: World, r: Record, now: real, d: Decision)
    requires InStep(w) && Justified(c, w, r, now, d)
    ensures InStep(Perform(w, r, now, d))
  {
    match d
    case OpenIssue(reference, _) =>
    case Revive =>
    case Quiet =>
    case Post(_) =>
    case _ => assert Perform(w, r, now, d).ledger == w.ledger;
  }

  lemma StepKeepsLinks(c: Config, w: World, e: Event)
    requires InStep(w) && FreshReply(w, e)
    ensures InStep(Step(c, w, e))
  {
    match e
    case Handled(r, now, replies) =>
      DecisionsAreJustified(c, w, r, now, replies);
      PerformKeepsLinks(c, w, r, now, Decide(c, w, r, now, replies));
    case Swept(now, refused) => SweepKeepsLinks(c, w, now, refused);
    case ClosedOutside(_, reference) =>
    case Restarted(_) =>
  }

  lemma PrefixFreshReplies(c: Config, w: World, es: seq<Event>)
    requires es != [] && FreshReplies(c, w, es)
    ensures FreshReplies(c, w, es[..|es| - 1])
    ensures FreshReply(Run(c, w, es[..|es| - 1]), es[|es| - 1])
  {
    var front := es[..|es| - 1];
    forall i | 0 <= i < |front|
      ensures FreshReply(Run(c, w, front[..i]), front[i])
    {
      assert front[..i] == es[..i];
      assert FreshReply(Run(c, w, es[..i]), es[i]);
    }
  }

  lemma {:induction false} RunKeepsLinks(c: Config, es: seq<Event>)
    requires FreshReplies(c, START, es)
    ensures InStep(Run(c, START, es))
  {
    if es != [] {
      PrefixFreshReplies(c, START, es);
      RunKeepsLinks(c, es[..|es| - 1]);
      StepKeepsLinks(c, Run(c, START, es[..|es| - 1]), es[|es| - 1]);
    }
  }

  /**
    A problem has no two open issues; an open one is the one the ledger refers
    to; a problem the ledger calls resolved has none.
   */
  ghost predicate OneOpenEach(w: World) {
    && (forall s, t | s in w.tickets && t in w.tickets && w.tickets[s].open && w.tickets[t].open
                      && w.tickets[s].problem == w.tickets[t].problem :: s == t)
    && (forall t | t in w.tickets && w.tickets[t].open ::
          w.tickets[t].problem in w.ledger && w.ledger[w.tickets[t].problem].reference == t)
    && (forall t | t in w.tickets && w.tickets[t].problem in w.ledger
                   && w.ledger[w.tickets[t].problem].status == Resolved :: !w.tickets[t].open)
  }

  /** Whatever fails, and whoever else closes issues. */
  lemma OneOpenIssuePerProblem(c: Config, es: seq<Event>)
    requires FreshReplies(c, START, es)
    ensures OneOpenEach(Run(c, START, es))
  {
    RunKeepsLinks(c, es);
  }

  // ---------- what a failed attempt leaves behind ----------

  predicate Fails(c: Config, w: World, e: Event) {
    e.Handled? && OutcomeOf(w, e.r, Decide(c, w, e.r, e.now, e.replies)).Raised?
  }

  /** `handle` is failure-atomic: a SinkError leaves ledger, tracker and counters as they were. */
  lemma RaisingChangesNothing(c: Config, w: World, e: Event)
    ensures Fails(c, w, e) ==> Step(c, w, e) == w
  {
  }

  /** Low to critical; an unknown severity reaches only the lowest threshold, an unknown threshold is reached by none. */
  predicate Reaches(severity: Severity, threshold: Threshold) {
    || threshold.All?
    || threshold.least.Low?
    || (threshold.least.Medium? && (severity.Medium? || severity.High? || severity.Critical?))
    || (threshold.least.High? && (severity.High? || severity.Critical?))
    || (threshold.least.Critical? && severity.Critical?)
  }

  predicate Tracked(c: Config, r: Record) {
    Reaches(r.severity, c.minSeverity) && r.problemKey != ""
  }

  /** The record explains the problem, and not as it was explained before. */
  predicate NewCause(known: string, cause: string) {
    known != "" && cause !in {"", known}
  }

  /** An occurrence of an open issue that is worth saying: another cause, or the interval has passed. */
  predicate WorthSaying(c: Config, issue: Issue, r: Record, now: real) {
    NewCause(issue.lastRootCause, r.rootCause) || issue.lastCommentAt + c.updateInterval <= now
  }

  /** The tracker says that someone else closed the issue. */
  predicate FoundClosed(w: World, reference: Ref, replies: Replies) {
    replies.tellsOpen && reference in w.tickets && !w.tickets[reference].open
  }

  /** The tracker would be asked to open an issue: there is none, or it is closed and cannot be revived. */
  predicate NeedsIssue(c: Config, w: World, r: Record, now: real, replies: Replies) {
    r.problemKey !in w.ledger ||
    (var issue := w.ledger[r.problemKey];
     && (issue.status == Resolved ||
         (WorthSaying(c, issue, r, now) && FoundClosed(w, issue.reference, replies)))
     && !(c.supportsReopen && replies.reopens))
  }

  /** The tracker would be asked to post on an issue it does not call closed. */
  predicate NeedsComment(c: Config, w: World, r: Record, now: real, replies: Replies) {
    r.problemKey in w.ledger &&
    (var issue := w.ledger[r.problemKey];
     && issue.status == Open && WorthSaying(c, issue, r, now) && !FoundClosed(w, issue.reference, replies))
  }

  /** A SinkError escapes exactly when a needed issue, or a needed comment, is refused. */
  lemma RaisesExactlyWhen(c: Config, w: World, r: Record, now: real, replies: Replies)
    requires InStep(w)
    ensures Fails(c, w, Handled(r, now, replies)) <==>
            Tracked(c, r) && !c.dryRun &&
            ((NeedsIssue(c, w, r, now, replies) && replies.created.None?) ||
             (NeedsComment(c, w, r, now, replies) && !replies.comments))
    ensures Decide(c, w, r, now, replies).OpenIssue? <==>
            Tracked(c, r) && !c.dryRun && NeedsIssue(c, w, r, now, replies) && replies.created.Some?
  {
  }

  /** The run without the attempts that raised. */
  function Successes(c: Config, w: World, es: seq<Event>): seq<Event> {
    if es == [] then []
    else
      var front := es[..|es| - 1];
      Successes(c, w, front) + if Fails(c, Run(c, w, front), es[|es| - 1]) then [] else [es[|es| - 1]]
  }

  /** Retrying costs nothing: a run ends where its successful attempts alone would end. */
  lemma {:induction false} FailedAttemptsLeaveNoTrace(c: Config, w: World, es: seq<Event>)
    ensures Run(c, w, Successes(c, w, es)) == Run(c, w, es)
  {
    if es != [] {
      var front, last := es[..|es| - 1], es[|es| - 1];
      FailedAttemptsLeaveNoTrace(c, w, front);
      var kept := Successes(c, w, front);
      RaisingChangesNothing(c, Run(c, w, front), last);
      if !Fails(c, Run(c, w, front), last) {
        assert (kept + [last])[..|kept|] == kept;
      } else {
        assert Successes(c, w, es) == kept;
      }
    }
  }

  // ---------- the tracker's log, problem by problem ----------

  /** What the tracker accepted on behalf of one problem. */
  function Mine(log: seq<Entry>, k: Key): (mine: seq<Entry>)
    ensures forall i | 0 <= i < |mine| :: mine[i].problem == k
  {
    if log == [] then []
    else
      var before, last := Mine(log[..|log| - 1], k), log[|log| - 1];
      if last.problem == k then before + [last] else before
  }

  lemma MineOfOneMore(log: seq<Entry>, e: Entry, k: Key)
    ensures e.problem == k ==> Mine(log + [e], k) == Mine(log, k) + [e]
    ensures e.problem != k ==> Mine(log + [e], k) == Mine(log, k)
  {
    assert (log + [e])[..|log|] == log;
  }

  /** References of the issues opened for a problem, in order. */
  function Openings(log: seq<Entry>, k: Key): seq<Ref> {
    if log == [] then []
    else
      var before, last := Openings(log[..|log| - 1], k), log[|log| - 1];
      if last.problem == k && last.deed == Opened then before + [last.reference] else before
  }

  lemma OpeningsOfOneMore(log: seq<Entry>, e: Entry, k: Key)
    ensures e.problem == k && e.deed == Opened ==> Openings(log + [e], k) == Openings(log, k) + [e.reference]
    ensures !(e.problem == k && e.deed == Opened) ==> Openings(log + [e], k) == Openings(log, k)
  {
    assert (log + [e])[..|log|] == log;
  }

  function Creations(history: seq<Action>): seq<Ref> {
    if history == [] then []
    else
      var before, last := Creations(history[..|history| - 1]), history[|history| - 1];
      if last.Created? then before + [last.reference] else before
  }

  lemma CreationsOfOneMore(history: seq<Action>, a: Action)
    ensures a.Created? ==> Creations(history + [a]) == Creations(history) + [a.reference]
    ensures !a.Created? ==> Creations(history + [a]) == Creations(history)
  {
    assert (history + [a])[..|history|] == history;
  }

  lemma MineOfMore(log: seq<Entry>, more: seq<Entry>, k: Key)
    requires |more| <= 2 && forall i | 0 <= i < |more| :: more[i].problem == k
    ensures Mine(log + more, k) == Mine(log, k) + more
  {
    if |more| == 0 {
      assert log + more == log;
    } else if |more| == 1 {
      MineOfOneMore(log, more[0], k);
      assert more == [more[0]];
    } else {
      MineOfOneMore(log, more[0], k);
      MineOfOneMore(log + [more[0]], more[1], k);
      assert log + more == log + [more[0]] + [more[1]];
    }
  }

  lemma MineOfOthers(log: seq<Entry>, more: seq<Entry>, k: Key)
    requires |more| <= 2 && forall i | 0 <= i < |more| :: more[i].problem != k
    ensures Mine(log + more, k) == Mine(log, k)
  {
    if |more| == 0 {
      assert log + more == log;
    } else if |more| == 1 {
      MineOfOneMore(log, more[0], k);
      assert more == [more[0]];
    } else {
      MineOfOneMore(log, more[0], k);
      MineOfOneMore(log + [more[0]], more[1], k);
      assert log + more == log + [more[0]] + [more[1]];
    }
  }

  lemma OpeningsOfMore(log: seq<Entry>, more: seq<Entry>, k: Key)
    requires 1 <= |more| <= 2 && (|more| == 2 ==> more[1].deed != Opened)
    ensures more[0].problem == k && more[0].deed == Opened ==> Openings(log + more, k) == Openings(log, k) + [more[0].reference]
    ensures !(more[0].problem == k && more[0].deed == Opened) ==> Openings(log + more, k) == Openings(log, k)
  {
    OpeningsOfOneMore(log, more[0], k);
    if |more| == 1 {
      assert more == [more[0]];
    } else {
      OpeningsOfOneMore(log + [more[0]], more[1], k);
      assert log + more == log + [more[0]] + [more[1]];
    }
  }

  /** A decision appends to the log only on behalf of the record's own problem. */
  lemma MineAfter(c: Config, w: World, r: Record, now: real, d: Decision, k: Key)
    requires Justified(c, w, r, now, d)
    ensures k == r.problemKey ==> Mine(Perform(w, r, now, d).log, k) == Mine(w.log, k) + Deeds(Lookup(w, k), k, now, d)
    ensures k != r.problemKey ==> Mine(Perform(w, r, now, d).log, k) == Mine(w.log, k)
  {
    var more := Deeds(Lookup(w, r.problemKey), r.problemKey, now, d);
    if k == r.problemKey {
      MineOfMore(w.log, more, k);
    } else {
      MineOfOthers(w.log, more, k);
    }
  }

  /** The only decision that opens an issue does so for the record's own problem. */
  lemma OpeningsAfter(c: Config, w: World, r: Record, now: real, d: Decision, k: Key)
    requires Justified(c, w, r, now, d)
    ensures k == r.problemKey && d.OpenIssue? ==>
              Openings(Perform(w, r, now, d).log, k) == Openings(w.log, k) + [d.reference]
    ensures !(k == r.problemKey && d.OpenIssue?) ==> Openings(Perform(w, r, now, d).log, k) == Openings(w.log, k)
  {
    var more := Deeds(Lookup(w, r.problemKey), r.problemKey, now, d);
    if more == [] {
      assert w.log + more == w.log;
    } else {
      OpeningsOfMore(w.log, more, k);
    }
  }

  /** Handling one problem's record leaves every other problem alone. */
  lemma OthersUntouched(c: Config, w: World, r: Record, now: real, replies: Replies, k: Key)
    requires InStep(w) && FreshReply(w, Handled(r, now, replies)) && k != r.problemKey
    ensures var w' := Step(c, w, Handled(r, now, replies));
      && Mine(w'.log, k) == Mine(w.log, k)
      && Lookup(w', k) == Lookup(w, k)
      && (forall t | t in w.tickets && w.tickets[t].problem == k :: t in w'.tickets && w'.tickets[t] == w.tickets[t])
  {
    DecisionsAreJustified(c, w, r, now, replies);
    MineAfter(c, w, r, now, Decide(c, w, r, now, replies), k);
  }

  // ---------- the ledger's history ----------

  ghost predicate NoRepeats(refs: seq<Ref>) {
    forall i, j | 0 <= i < j < |refs| :: refs[i] != refs[j]
  }

  /** `refs` lists, once each, the tracker's issues for a problem. */
  ghost predicate Lists(tickets: map<Ref, Ticket>, k: Key, refs: seq<Ref>) {
    NoRepeats(refs) && forall t :: t in tickets && tickets[t].problem == k <==> t in refs
  }

  lemma ListsKept(tickets: map<Ref, Ticket>, tickets': map<Ref, Ticket>, k: Key, refs: seq<Ref>)
    requires Lists(tickets, k, refs)
    requires tickets'.Keys == tickets.Keys
    requires forall t | t in tickets :: tickets'[t].problem == tickets[t].problem
    ensures Lists(tickets', k, refs)
  {
    forall t ensures t in tickets' && tickets'[t].problem == k <==> t in refs {
      assert t in tickets && tickets[t].problem == k <==> t in refs;
    }
  }

  lemma ListsGrown(tickets: map<Ref, Ticket>, k: Key, refs: seq<Ref>, reference: Ref, problem: Key)
    requires Lists(tickets, k, refs) && reference !in tickets
    ensures problem == k ==> Lists(tickets[reference := Ticket(problem, true)], k, refs + [reference])
    ensures problem != k ==> Lists(tickets[reference := Ticket(problem, true)], k, refs)
  {
    var tickets' := tickets[reference := Ticket(problem, true)];
    var refs' := if problem == k then refs + [reference] else refs;
    assert reference !in refs;
    forall t ensures t in tickets' && tickets'[t].problem == k <==> t in refs' {
      assert t in tickets && tickets[t].problem == k <==> t in refs;
    }
  }

  /** The ledger's history names exactly the issues ever opened for the problem. */
  ghost predicate Recorded(w: World, k: Key) {
    && Openings(w.log, k) == Creations(Lookup(w, k).history)
    && (k in w.ledger ==>
          && Openings(w.log, k) != []
          && Openings(w.log, k)[|Openings(w.log, k)| - 1] == w.ledger[k].reference)
    && Lists(w.tickets, k, Openings(w.log, k))
  }

  lemma HandleTickets(c: Config, w: World, r: Record, now: real, d: Decision, k: Key, refs: seq<Ref>)
    requires Justified(c, w, r, now, d) && Lists(w.tickets, k, refs)
    ensures k == r.problemKey && d.OpenIssue? ==> Lists(Perform(w, r, now, d).tickets, k, refs + [d.reference])
    ensures !(k == r.problemKey && d.OpenIssue?) ==> Lists(Perform(w, r, now, d).tickets, k, refs)
  {
    if d.OpenIssue? {
      ListsGrown(w.tickets, k, refs, d.reference, r.problemKey);
    } else {
      ListsKept(w.tickets, Perform(w, r, now, d).tickets, k, refs);
    }
  }

  lemma CreationsAfter(c: Config, w: World, r: Record, now: real, d: Decision, k: Key)
    requires Justified(c, w, r, now, d)
    ensures var history := Lookup(Perform(w, r, now, d), k).history;
            && (k == r.problemKey && d.OpenIssue? ==> Creations(history) == Creations(Lookup(w, k).history) + [d.reference])
            && (!(k == r.problemKey && d.OpenIssue?) ==> Creations(history) == Creations(Lookup(w, k).history))
  {
    var history := Lookup(w, k).history;
    CreationsOfOneMore(history, Reopened);
    if d.OpenIssue? {
      CreationsOfOneMore(history, Created(d.reference));
    }
  }

  lemma CurrentAfter(c: Config, w: World, r: Record, now: real, d: Decision, k: Key)
    requires Justified(c, w, r, now, d) && k in Perform(w, r, now, d).ledger
    ensures k == r.problemKey && d.OpenIssue? ==> Perform(w, r, now, d).ledger[k].reference == d.reference
    ensures !(k == r.problemKey && d.OpenIssue?) ==>
              k in w.ledger && Perform(w, r, now, d).ledger[k].reference == w.ledger[k].reference
  {
  }

  lemma HandleIsRecorded(c: Config, w: World, r: Record, now: real, d: Decision, k: Key)
    requires Recorded(w, k) && Justified(c, w, r, now, d)
    ensures Recorded(Perform(w, r, now, d), k)
  {
    OpeningsAfter(c, w, r, now, d, k);
    CreationsAfter(c, w, r, now, d, k);
    HandleTickets(c, w, r, now, d, k, Openings(w.log, k));
    if k in Perform(w, r, now, d).ledger {
      CurrentAfter(c, w, r, now, d, k);
    }
  }

  lemma SweepIsRecorded(c: Config, w: World, now: real, refused: set<Ref>, k: Key)
    requires Recorded(w, k)
    ensures Recorded(Sweep(c, w, now, refused), k)
  {
    CreationsOfOneMore(Lookup(w, k).history, Closed);
    ListsKept(w.tickets, Sweep(c, w, now, refused).tickets, k, Openings(w.log, k));
  }

  lemma {:induction false} RunIsRecorded(c: Config, es: seq<Event>, k: Key)
    requires FreshReplies(c, START, es)
    ensures Recorded(Run(c, START, es), k)
  {
    if es != [] {
      var front, last := es[..|es| - 1], es[|es| - 1];
      PrefixFreshReplies(c, START, es);
      RunKeepsLinks(c, front);
      RunIsRecorded(c, front, k);
      var w := Run(c, START, front);
      match last
      case Handled(r, now, replies) =>
        DecisionsAreJustified(c, w, r, now, replies);
        HandleIsRecorded(c, w, r, now, Decide(c, w, r, now, replies), k);
      case Swept(now, refused) => SweepIsRecorded(c, w, now, refused, k);
      case ClosedOutside(_, _) => ListsKept(w.tickets, Step(c, w, last).tickets, k, Openings(w.log, k));
      case Restarted(_) =>
    }
  }

  /**
    A ledger entry's history survives reopening, recreation, resolution and
    restart: it lists exactly the tracker's issues for that problem, without
    repetition, the current one last.
   */
  lemma HistoryNamesEveryIssue(c: Config, es: seq<Event>, k: Key)
    requires FreshReplies(c, START, es)
    ensures var w := Run(c, START, es); var refs := Creations(Lookup(w, k).history);
            && Lists(w.tickets, k, refs)
            && (k in w.ledger ==> refs != [] && refs[|refs| - 1] == w.ledger[k].reference)
  {
    RunIsRecorded(c, es, k);
  }

  // ---------- how many issues a problem gets ----------

  /**
    Handling a record opens one issue exactly when none exists, or the old one
    is resolved or found closed and cannot be revived; otherwise none.
   */
  lemma OpensExactlyWhen(c: Config, w: World, r: Record, now: real, replies: Replies)
    requires InStep(w) && FreshReply(w, Handled(r, now, replies))
    ensures |Openings(Step(c, w, Handled(r, now, replies)).log, r.problemKey)|
         == |Openings(w.log, r.problemKey)|
            + if Tracked(c, r) && !c.dryRun && NeedsIssue(c, w, r, now, replies) && replies.created.Some?
              then 1 else 0
  {
    DecisionsAreJustified(c, w, r, now, replies);
    RaisesExactlyWhen(c, w, r, now, replies);
    OpeningsAfter(c, w, r, now, Decide(c, w, r, now, replies), r.problemKey);
  }

  predicate ReopensWork(c: Config, es: seq<Event>) {
    c.supportsReopen && forall i | 0 <= i < |es| && es[i].Handled? :: es[i].replies.reopens
  }

  lemma {:induction false} AtMostOneOpening(c: Config, es: seq<Event>, k: Key)
    requires FreshReplies(c, START, es) && ReopensWork(c, es)
    ensures |Openings(Run(c, START, es).log, k)| <= 1
  {
    if es != [] {
      var front, last := es[..|es| - 1], es[|es| - 1];
      PrefixFreshReplies(c, START, es);
      AtMostOneOpening(c, front, k);
      RunKeepsLinks(c, front);
      RunIsRecorded(c, front, k);
      var w := Run(c, START, front);
      assert k !in w.ledger ==> Openings(w.log, k) == Creations([]) == [];
      if last.Handled? {
        DecisionsAreJustified(c, w, last.r, last.now, last.replies);
        RaisesExactlyWhen(c, w, last.r, last.now, last.replies);
        OpeningsAfter(c, w, last.r, last.now, Decide(c, w, last.r, last.now, last.replies), k);
      }
    }
  }

  ghost predicate OneIssueEach(tickets: map<Ref, Ticket>) {
    forall s, t | s in tickets && t in tickets && tickets[s].problem == tickets[t].problem :: s == t
  }

  /** With a tracker that always reopens, a problem gets one issue, ever. */
  lemma {:induction false} OneIssueForever(c: Config, es: seq<Event>)
    requires FreshReplies(c, START, es) && ReopensWork(c, es)
    ensures OneIssueEach(Run(c, START, es).tickets)
  {
    var w := Run(c, START, es);
    forall s, t | s in w.tickets && t in w.tickets && w.tickets[s].problem == w.tickets[t].problem
      ensures s == t
    {
      var k := w.tickets[s].problem;
      AtMostOneOpening(c, es, k);
      RunIsRecorded(c, es, k);
      assert s in Openings(w.log, k) && t in Openings(w.log, k);
    }
  }

  // ---------- rate limit ----------

  ghost predicate ClockRuns(es: seq<Event>) {
    forall i, j | 0 <= i < j < |es| :: es[i].now <= es[j].now
  }

  function Routines(mine: seq<Entry>): nat {
    if mine == [] then 0
    else
      var before := Routines(mine[..|mine| - 1]);
      if mine[|mine| - 1].deed == Routine then before + 1 else before
  }

  lemma RoutinesOfOneMore(mine: seq<Entry>, e: Entry)
    ensures Routines(mine + [e]) == Routines(mine) + if e.deed == Routine then 1 else 0
  {
    assert (mine + [e])[..|mine|] == mine;
  }

  /** Every routine comment comes a full interval after whatever was posted before it. */
  ghost predicate Spaced(interval: real, mine: seq<Entry>) {
    forall i, j | 0 <= i < j < |mine| && mine[j].deed == Routine :: mine[j].at - mine[i].at >= interval
  }

  /** How long `n` intervals take. */
  function Intervals(n: nat, interval: real): real {
    if n == 0 then 0.0 else Intervals(n - 1, interval) + interval
  }

  lemma {:induction false} IntervalsMultiply(n: nat, interval: real)
    ensures Intervals(n, interval) == n as real * interval
  {
    if n > 0 {
      IntervalsMultiply(n - 1, interval);
    }
  }

  /** The posts of one problem up to a latest one at `last` respect the interval. */
  ghost predicate Paced(interval: real, mine: seq<Entry>, last: real) {
    && (forall i | 0 <= i < |mine| :: mine[i].at <= last)
    && Spaced(interval, mine)
    && (mine != [] ==> mine[0].deed == Opened && Intervals(Routines(mine), interval) <= last - mine[0].at)
  }

  lemma OneMoreIsSpaced(interval: real, mine: seq<Entry>, last: real, e: Entry)
    requires Paced(interval, mine, last) && last <= e.at
    requires e.deed == Routine ==> e.at - last >= interval
    ensures Spaced(interval, mine + [e]) && forall i | 0 <= i < |mine| :: mine[i].at <= e.at
  {
  }

  lemma OneMorePost(interval: real, mine: seq<Entry>, last: real, e: Entry)
    requires Paced(interval, mine, last) && last <= e.at
    requires mine == [] ==> e.deed == Opened
    requires e.deed == Routine ==> e.at - last >= interval
    ensures Paced(interval, mine + [e], e.at)
  {
    OneMoreIsSpaced(interval, mine, last, e);
    RoutinesOfOneMore(mine, e);
    if mine != [] {
      assert (mine + [e])[0] == mine[0];
    }
  }

  ghost predicate PacedFor(c: Config, w: World, k: Key) {
    && Paced(c.updateInterval, Mine(w.log, k), Lookup(w, k).lastCommentAt)
    && (k in w.ledger <==> Mine(w.log, k) != [])
  }

  /** One decision's posts on its own problem, first to last. */
  lemma DeedsArePaced(interval: real, mine: seq<Entry>, last: real, more: seq<Entry>, now: real)
    requires Paced(interval, mine, last) && last <= now && 1 <= |more| <= 2
    requires forall i | 0 <= i < |more| :: more[i].at == now
    requires mine == [] ==> more[0].deed == Opened
    requires more[0].deed == Routine ==> now - last >= interval
    requires |more| == 2 ==> more[1].deed != Routine
    ensures Paced(interval, mine + more, now) && mine + more != []
  {
    OneMorePost(interval, mine, last, more[0]);
    if |more| == 2 {
      OneMorePost(interval, mine + [more[0]], now, more[1]);
      assert mine + more == mine + [more[0]] + [more[1]];
    } else {
      assert mine + more == mine + [more[0]];
    }
  }

  /** A decision dates the issue when it posts on it, and only then. */
  lemma LastPostAfter(c: Config, w: World, r: Record, now: real, d: Decision, k: Key)
    requires Justified(c, w, r, now, d)
    ensures var w' := Perform(w, r, now, d);
            var posts := k == r.problemKey && Deeds(Lookup(w, k), k, now, d) != [];
            && (k in w'.ledger <==> k in w.ledger || posts)
            && Lookup(w', k).lastCommentAt == if posts then now else Lookup(w, k).lastCommentAt
  {
  }

  /** What a decision's posts are like, when it makes any. */
  lemma DeedsAreDue(c: Config, w: World, r: Record, now: real, d: Decision)
    requires Justified(c, w, r, now, d)
    ensures var k := r.problemKey; var more := Deeds(Lookup(w, k), k, now, d);
            && |more| <= 2 && (forall i | 0 <= i < |more| :: more[i].at == now)
            && (more != [] && k !in w.ledger ==> more[0].deed == Opened)
            && (more != [] && more[0].deed == Routine ==> k in w.ledger && now - w.ledger[k].lastCommentAt >= c.updateInterval)
            && (|more| == 2 ==> more[1].deed != Routine)
  {
  }

  lemma HandleIsPaced(c: Config, w: World, r: Record, now: real, d: Decision, k: Key)
    requires PacedFor(c, w, k) && Justified(c, w, r, now, d)
    requires k in w.ledger ==> w.ledger[k].lastCommentAt <= now
    ensures PacedFor(c, Perform(w, r, now, d), k)
    ensures k in Perform(w, r, now, d).ledger ==> Perform(w, r, now, d).ledger[k].lastCommentAt <= now
  {
    MineAfter(c, w, r, now, d, k);
    LastPostAfter(c, w, r, now, d, k);
    DeedsAreDue(c, w, r, now, d);
    var mine, issue := Mine(w.log, k), Lookup(w, k);
    var more := Deeds(issue, k, now, d);
    if k == r.problemKey && more == [] {
      assert mine + more == mine;
    } else if k == r.problemKey {
      DeedsArePaced(c.updateInterval, mine, if mine == [] then now else issue.lastCommentAt, more, now);
    }
  }

  /**
    At most one routine comment per interval, for each problem, across revised
    analyses, reopenings, recreations and restarts: a routine comment is a full
    interval later than every earlier post on the problem, so n of them need n
    intervals between the first issue and the latest post.
   */
  lemma {:induction false} RoutineCommentsAreRateLimited(c: Config, es: seq<Event>, k: Key)
    requires FreshReplies(c, START, es) && ClockRuns(es)
    ensures PacedFor(c, Run(c, START, es), k)
    ensures es != [] && k in Run(c, START, es).ledger ==>
              Run(c, START, es).ledger[k].lastCommentAt <= es[|es| - 1].now
  {
    if es != [] {
      var front, last := es[..|es| - 1], es[|es| - 1];
      PrefixFreshReplies(c, START, es);
      RunKeepsLinks(c, front);
      RoutineCommentsAreRateLimited(c, front, k);
      var w := Run(c, START, front);
      if last.Handled? {
        DecisionsAreJustified(c, w, last.r, last.now, last.replies);
        HandleIsPaced(c, w, last.r, last.now, Decide(c, w, last.r, last.now, last.replies), k);
      }
    }
  }

  /** The bound itself: routine comments times the interval fit between the first issue and the latest post. */
  lemma RoutineCommentsFit(c: Config, es: seq<Event>, k: Key)
    requires FreshReplies(c, START, es) && ClockRuns(es) && k in Run(c, START, es).ledger
    ensures var w := Run(c, START, es); var mine := Mine(w.log, k);
            && mine != [] && mine[0].deed == Opened
            && Intervals(Routines(mine), c.updateInterval) <= w.ledger[k].lastCommentAt - mine[0].at
  {
    RoutineCommentsAreRateLimited(c, es, k);
  }
}
