/** When something is posted on an issue, in terms of what was handed in and what was posted before. */
module LifecycleComments {
  import opened Basics
  import opened LifecycleModel
  import opened LifecycleRuns
  import opened LifecycleResolution

  // ---------- one occurrence ----------

  /** What the tracker is asked to post for an occurrence that succeeds. */
  function Posts(c: Config, w: World, r: Record, now: real, replies: Replies): seq<Entry> {
    var k, was := r.problemKey, Lookup(w, r.problemKey);
    if Revives(c, w, r, now, replies) then [Entry(k, was.reference, Revived, now)]
    else if NeedsIssue(c, w, r, now, replies) && replies.created.Some? then
      var opening := Entry(k, replies.created.value, Opened, now);
      if k in w.ledger && replies.links then [opening, Entry(k, replies.created.value, CrossLinked, now)] else [opening]
    else if NeedsComment(c, w, r, now, replies) then
      [Entry(k, was.reference, if NewCause(was.lastRootCause, r.rootCause) then Revised else Routine, now)]
    else []
  }

  /** What an occurrence adds to the tracker, and what `handle` returns: the reference of the issue that stands for it. */
  lemma PostsAndReturns(c: Config, w: World, r: Record, now: real, replies: Replies)
    requires InStep(w) && FreshReply(w, Handled(r, now, replies))
    ensures var w', outcome := Step(c, w, Handled(r, now, replies)), OutcomeOf(w, r, Decide(c, w, r, now, replies));
            var acts := Tracked(c, r) && !c.dryRun && !Fails(c, w, Handled(r, now, replies));
            && w'.log == w.log + (if acts then Posts(c, w, r, now, replies) else [])
            && (acts ==> r.problemKey in w'.ledger && outcome == Returned(Some(w'.ledger[r.problemKey].reference)))
            && (!Tracked(c, r) ==> outcome == Returned(None))
            && (Tracked(c, r) && c.dryRun ==>
                  outcome == Returned(if r.problemKey in w.ledger then Some(w.ledger[r.problemKey].reference) else None))
  {
    RevivesExactlyWhen(c, w, r, now, replies);
    DecisionsAreJustified(c, w, r, now, replies);
    RaisesExactlyWhen(c, w, r, now, replies);
  }

  lemma SameAppended(log: seq<Entry>, a: seq<Entry>, b: seq<Entry>)
    ensures log + a == log + b <==> a == b
  {
    assert a == (log + a)[|log|..] && b == (log + b)[|log|..];
  }

  /** The comment an occurrence of an open issue calls for, and whether it is posted. */
  lemma CommentsWhen(c: Config, w: World, r: Record, now: real, replies: Replies, comment: Entry)
    requires InStep(w) && FreshReply(w, Handled(r, now, replies))
    requires r.problemKey in w.ledger && w.ledger[r.problemKey].status == Open && comment.deed in {Routine, Revised}
    ensures Step(c, w, Handled(r, now, replies)).log == w.log + [comment] <==>
              && Tracked(c, r) && !c.dryRun && replies.comments && NeedsComment(c, w, r, now, replies)
              && comment == Entry(r.problemKey, w.ledger[r.problemKey].reference,
                                  if NewCause(w.ledger[r.problemKey].lastRootCause, r.rootCause) then Revised else Routine, now)
  {
    var acts := Tracked(c, r) && !c.dryRun && !Fails(c, w, Handled(r, now, replies));
    PostsAndReturns(c, w, r, now, replies);
    RaisesExactlyWhen(c, w, r, now, replies);
    SameAppended(w.log, if acts then Posts(c, w, r, now, replies) else [], [comment]);
    assert [comment][0] == comment;
  }

  // ---------- over runs ----------

  /** The cause last given for a problem: when its issue was opened, or in a comment that gave one. */
  function Announced(c: Config, es: seq<Event>, k: Key): string {
    if es == [] then ""
    else
      var front, last := es[..|es| - 1], es[|es| - 1];
      AnnouncedAfter(Announced(c, front, k), Run(c, START, front).log, Run(c, START, es).log, last, k)
  }

  function AnnouncedAfter(before: string, log: seq<Entry>, log': seq<Entry>, e: Event, k: Key): string {
    if !e.Handled? || e.r.problemKey != k || |log'| <= |log| then before
    else
      match log'[|log|].deed
      case Opened => e.r.rootCause
      case Revived => before
      case _ => if e.r.rootCause == "" then before else e.r.rootCause
  }

  /** The ledger's entry tells when something was last posted on its problem, and what was last announced. */
  ghost predicate Remembers(w: World, k: Key, announced: string) {
    var mine := Mine(w.log, k);
    && (k in w.ledger <==> mine != [])
    && (k in w.ledger ==> w.ledger[k].lastCommentAt == mine[|mine| - 1].at && w.ledger[k].lastRootCause == announced)
  }

  lemma HandleIsRemembered(c: Config, w: World, r: Record, now: real, replies: Replies, k: Key, announced: string)
    requires InStep(w) && FreshReply(w, Handled(r, now, replies)) && Remembers(w, k, announced)
    ensures var e := Handled(r, now, replies);
            Remembers(Step(c, w, e), k, AnnouncedAfter(announced, w.log, Step(c, w, e).log, e, k))
  {
    var d := Decide(c, w, r, now, replies);
    DecisionsAreJustified(c, w, r, now, replies);
    MineAfter(c, w, r, now, d, k);
    LastPostAfter(c, w, r, now, d, k);
    DeedsAreDue(c, w, r, now, d);
    if k == r.problemKey {
      CauseAfter(c, w, r, now, d);
    }
  }

  lemma CauseAfter(c: Config, w: World, r: Record, now: real, d: Decision)
    requires Justified(c, w, r, now, d)
    ensures var k, w' := r.problemKey, Perform(w, r, now, d);
            (k in w'.ledger ==>
               w'.ledger[k].lastRootCause
               == if |w'.log| <= |w.log| then Lookup(w, k).lastRootCause
                  else match w'.log[|w.log|].deed
                       case Opened => r.rootCause
                       case Revived => Lookup(w, k).lastRootCause
                       case _ => if r.rootCause == "" then Lookup(w, k).lastRootCause else r.rootCause)
  {
  }

  lemma {:induction false} LedgerRemembers(c: Config, es: seq<Event>, k: Key)
    requires FreshReplies(c, START, es)
    ensures Remembers(Run(c, START, es), k, Announced(c, es, k))
  {
    if es != [] {
      var front, last := es[..|es| - 1], es[|es| - 1];
      PrefixFreshReplies(c, START, es);
      RunKeepsLinks(c, front);
      LedgerRemembers(c, front, k);
      if last.Handled? {
        HandleIsRemembered(c, Run(c, START, front), last.r, last.now, last.replies, k, Announced(c, front, k));
      }
    }
  }

  /** When something was last posted on a problem. */
  function LastPost(w: World, k: Key): real {
    var mine := Mine(w.log, k);
    if mine == [] then 0.0 else mine[|mine| - 1].at
  }

  predicate HasOpenIssue(w: World, k: Key) {
    k in w.ledger && w.ledger[k].status == Open
  }

  /**
    A comment is posted on an open issue exactly when the tracker takes it and does not call the issue
    closed, and either the record gives another cause than the one last announced, or an interval has passed
    since the last post on the problem. It is a revised analysis in the first case and a routine one otherwise.
   */
  lemma CommentsExactlyWhen(c: Config, es: seq<Event>, r: Record, now: real, replies: Replies)
    requires FreshReplies(c, START, es) && FreshReply(Run(c, START, es), Handled(r, now, replies))
    requires HasOpenIssue(Run(c, START, es), r.problemKey)
    ensures var k, w, w' := r.problemKey, Run(c, START, es), Run(c, START, es + [Handled(r, now, replies)]);
            var reference := w.ledger[k].reference;
            var taken := Tracked(c, r) && !c.dryRun && replies.comments && !FoundClosed(w, reference, replies);
            var news := NewCause(Announced(c, es, k), r.rootCause);
            && (w'.log == w.log + [Entry(k, reference, Revised, now)] <==> taken && news)
            && (w'.log == w.log + [Entry(k, reference, Routine, now)] <==>
                  taken && !news && LastPost(w, k) + c.updateInterval <= now)
  {
    RunOfOneMore(c, START, es, Handled(r, now, replies));
    RunKeepsLinks(c, es);
    LedgerRemembers(c, es, r.problemKey);
    var w, k := Run(c, START, es), r.problemKey;
    CommentsWhen(c, w, r, now, replies, Entry(k, w.ledger[k].reference, Revised, now));
    CommentsWhen(c, w, r, now, replies, Entry(k, w.ledger[k].reference, Routine, now));
  }

  /**
    No comment storm: while its issue is open, a record that gives the cause already announced, or none,
    less than an interval after the last post adds nothing to the tracker, whatever the tracker would say.
   */
  lemma NothingNewIsNotSaid(c: Config, es: seq<Event>, r: Record, now: real, replies: Replies)
    requires FreshReplies(c, START, es) && FreshReply(Run(c, START, es), Handled(r, now, replies))
    requires HasOpenIssue(Run(c, START, es), r.problemKey)
    requires r.rootCause in {"", Announced(c, es, r.problemKey)}
    requires now - LastPost(Run(c, START, es), r.problemKey) < c.updateInterval
    ensures var w, w' := Run(c, START, es), Run(c, START, es + [Handled(r, now, replies)]);
            && w'.log == w.log && w'.tickets == w.tickets && HasOpenIssue(w', r.problemKey)
            && !Fails(c, w, Handled(r, now, replies))
  {
    RunOfOneMore(c, START, es, Handled(r, now, replies));
    RunKeepsLinks(c, es);
    LedgerRemembers(c, es, r.problemKey);
    NotWorthSaying(c, Run(c, START, es), r, now, replies);
  }

  lemma NotWorthSaying(c: Config, w: World, r: Record, now: real, replies: Replies)
    requires InStep(w) && HasOpenIssue(w, r.problemKey) && !WorthSaying(c, w.ledger[r.problemKey], r, now)
    ensures var w' := Step(c, w, Handled(r, now, replies));
            && w'.log == w.log && w'.tickets == w.tickets && HasOpenIssue(w', r.problemKey)
            && !Fails(c, w, Handled(r, now, replies))
  {
    var d := Decide(c, w, r, now, replies);
    assert d.BelowThreshold? || d.NoKey? || d.Quiet?;
    assert w.log + [] == w.log;
  }

  /** A sweep closes an open issue without a usable time exactly when nothing was posted on it for the window. */
  lemma UndatedIssueClosesExactlyWhen(c: Config, es: seq<Event>, now: real, refused: set<Ref>, k: Key)
    requires FreshReplies(c, START, es) && HasOpenIssue(Run(c, START, es), k)
    requires !Run(c, START, es).ledger[k].lastSeen.At?
    ensures var w, w' := Run(c, START, es), Run(c, START, es + [Swept(now, refused)]);
            && k in w'.ledger
            && (w'.ledger[k].status == Resolved <==>
                  !c.dryRun && w.ledger[k].reference !in refused && LastPost(w, k) + c.resolveAfter <= now)
  {
    RunOfOneMore(c, START, es, Swept(now, refused));
    RunKeepsLinks(c, es);
    LedgerRemembers(c, es, k);
  }
}
