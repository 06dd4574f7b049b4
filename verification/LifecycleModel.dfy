/**
  The issue lifecycle as a protocol over values: the ledger of problems this
  node knows about, the tracker it talks to, and the operations that link them.
  What a tracker answers is part of each step, so a step is deterministic once
  its replies are given and a run ranges over every possible reply.
 */
module LifecycleModel {
  import opened Basics

  type Key = string
  type Ref = string

  /** A configured `min_severity`: the word "all", or the least severity tracked. */
  datatype Threshold = All | AtLeast(least: Severity)

  datatype Status = Untracked | Open | Resolved

  datatype Action = Created(reference: Ref) | Reopened | Closed

  /** One ledger entry. */
  datatype Issue = Issue(
    reference: Ref,
    status: Status,
    lastCommentAt: real,
    lastSeen: Stamp,
    lastRootCause: string,
    reported: int,
    history: seq<Action>)

  /** The fields of a delivered payload that the lifecycle looks at. */
  datatype Record = Record(
    severity: Severity,
    problemKey: Key,
    lastSeen: Stamp,
    rootCause: string,
    totalOccurrences: int)

  datatype Ticket = Ticket(problem: Key, open: bool)

  datatype Config = Config(
    minSeverity: Threshold,
    updateInterval: real,
    resolveAfter: real,
    dryRun: bool,
    supportsReopen: bool)

  /** What the tracker answers to the operations of one `handle`. */
  datatype Replies = Replies(
    created: Option<Ref>,
    comments: bool,
    reopens: bool,
    links: bool,
    tellsOpen: bool)

  /** An operation the tracker accepted, in order of acceptance. */
  datatype Deed = Opened | Routine | Revised | Revived | CrossLinked
  datatype Entry = Entry(problem: Key, reference: Ref, deed: Deed, at: real)

  datatype Counts = Counts(created: nat, updated: nat, resolved: nat, reopened: nat, skipped: nat)

  datatype World = World(
    ledger: map<Key, Issue>,
    tickets: map<Ref, Ticket>,
    log: seq<Entry>,
    counts: Counts)

  /** `Raised` is a SinkError leaving `handle`; otherwise its return value. */
  datatype Outcome = Raised | Returned(reference: Option<Ref>)

  const NO_COUNTS := Counts(0, 0, 0, 0, 0)
  const START := World(map[], map[], [], NO_COUNTS)

  /** An unknown severity ranks lowest, an unknown threshold is never met. */
  function Rank(severity: Severity, unknown: int): int {
    match severity
    case Low => 0
    case Medium => 1
    case High => 2
    case Critical => 3
    case Other(_) => unknown
  }

  predicate SeverityAtLeast(severity: Severity, threshold: Threshold) {
    threshold.All? || Rank(severity, 0) >= Rank(threshold.least, 99)
  }

  function Blank(history: seq<Action>): Issue {
    Issue("", Untracked, 0.0, Missing, "", 0, history)
  }

  function Lookup(w: World, key: Key): Issue {
    if key in w.ledger then w.ledger[key] else Blank([])
  }

  function StampOr(stamp: Stamp, fallback: Stamp): Stamp {
    if stamp.Missing? then fallback else stamp
  }

  predicate DueForComment(c: Config, issue: Issue, now: real) {
    now - issue.lastCommentAt >= c.updateInterval
  }

  predicate AnalysisChanged(issue: Issue, r: Record) {
    r.rootCause != "" && issue.lastRootCause != "" && r.rootCause != issue.lastRootCause
  }

  /** What `is_open` returns: nothing when the tracker cannot say. */
  function IsOpen(w: World, reference: Ref, replies: Replies): Option<bool> {
    if replies.tellsOpen && reference in w.tickets then Some(w.tickets[reference].open) else None
  }

  predicate Accepts(w: World, reference: Ref, willing: bool) {
    willing && reference in w.tickets
  }

  // ---------- handling one occurrence ----------

  /** What `handle` ends up doing. */
  datatype Decision =
    | BelowThreshold
    | NoKey
    | Announce
    | Refused
    | Quiet
    | Post(deed: Deed)
    | Revive
    | OpenIssue(reference: Ref, linked: bool)

  predicate Known(w: World, r: Record) {
    r.problemKey in w.ledger && w.ledger[r.problemKey].status != Untracked
  }

  predicate Speaks(c: Config, issue: Issue, r: Record, now: real) {
    AnalysisChanged(issue, r) || DueForComment(c, issue, now)
  }

  /** The decision table of `handle`, from the state and the tracker's replies. */
  function Decide(c: Config, w: World, r: Record, now: real, replies: Replies): Decision {
    var issue := Lookup(w, r.problemKey);
    if !SeverityAtLeast(r.severity, c.minSeverity) then BelowThreshold
    else if r.problemKey == "" then NoKey
    else if issue.status == Open && !Speaks(c, issue, r, now) then Quiet
    else if c.dryRun then Announce
    else if issue.status == Open && IsOpen(w, issue.reference, replies) != Some(false) then
      if !Accepts(w, issue.reference, replies.comments) then Refused
      else Post(if AnalysisChanged(issue, r) then Revised else Routine)
    else if issue.status != Untracked && c.supportsReopen && issue.reference != ""
            && Accepts(w, issue.reference, replies.reopens) then Revive
    else match replies.created
      case None => Refused
      case Some(reference) =>
        OpenIssue(reference,
                  issue.status != Untracked && issue.reference != "" && reference != "" && replies.links)
  }

  function QuietIssue(issue: Issue, r: Record): Issue {
    issue.(lastSeen := StampOr(r.lastSeen, issue.lastSeen), reported := CountOr(r.totalOccurrences, issue.reported))
  }

  function PostedIssue(issue: Issue, r: Record, now: real): Issue {
    issue.(lastCommentAt := now,
           lastSeen := StampOr(r.lastSeen, issue.lastSeen),
           lastRootCause := OrElse(r.rootCause, issue.lastRootCause),
           reported := r.totalOccurrences)
  }

  function RevivedIssue(issue: Issue, now: real): Issue {
    issue.(status := Open, lastCommentAt := now, history := issue.history + [Reopened])
  }

  function NewIssue(history: seq<Action>, reference: Ref, r: Record, now: real): Issue {
    Issue(reference, Open, now, r.lastSeen, r.rootCause, r.totalOccurrences, history + [Created(reference)])
  }

  /** The ledger entry a decision leaves for the record's problem. */
  function NextIssue(issue: Issue, r: Record, now: real, d: Decision): Issue {
    match d
    case Quiet => QuietIssue(issue, r)
    case Post(_) => PostedIssue(issue, r, now)
    case Revive => RevivedIssue(issue, now)
    case OpenIssue(reference, _) => NewIssue(issue.history, reference, r, now)
    case _ => issue
  }

  function NextTickets(tickets: map<Ref, Ticket>, issue: Issue, k: Key, d: Decision): map<Ref, Ticket> {
    match d
    case Revive =>
      if issue.reference in tickets
      then tickets[issue.reference := tickets[issue.reference].(open := true)]
      else tickets
    case OpenIssue(reference, _) => tickets[reference := Ticket(k, true)]
    case _ => tickets
  }

  /** The operations the tracker accepts under a decision. */
  function Deeds(issue: Issue, k: Key, now: real, d: Decision): seq<Entry> {
    match d
    case Post(deed) => [Entry(k, issue.reference, deed, now)]
    case Revive => [Entry(k, issue.reference, Revived, now)]
    case OpenIssue(reference, linked) =>
      if linked then [Entry(k, reference, Opened, now), Entry(k, reference, CrossLinked, now)]
      else [Entry(k, reference, Opened, now)]
    case _ => []
  }

  function NextCounts(n: Counts, d: Decision): Counts {
    match d
    case BelowThreshold => n.(skipped := n.skipped + 1)
    case Post(_) => n.(updated := n.updated + 1)
    case Revive => n.(reopened := n.reopened + 1)
    case OpenIssue(_, _) => n.(created := n.created + 1)
    case _ => n
  }

  predicate Writes(d: Decision) {
    d.Quiet? || d.Post? || d.Revive? || d.OpenIssue?
  }

  function Perform(w: World, r: Record, now: real, d: Decision): World {
    var k := r.problemKey;
    var issue := Lookup(w, k);
    World(if Writes(d) then w.ledger[k := NextIssue(issue, r, now, d)] else w.ledger,
          NextTickets(w.tickets, issue, k, d),
          w.log + Deeds(issue, k, now, d),
          NextCounts(w.counts, d))
  }

  function OutcomeOf(w: World, r: Record, d: Decision): Outcome {
    match d
    case Refused => Raised
    case BelowThreshold => Returned(None)
    case NoKey => Returned(None)
    case Announce => Returned(if Known(w, r) then Some(w.ledger[r.problemKey].reference) else None)
    case OpenIssue(reference, _) => Returned(Some(reference))
    case _ => Returned(Some(Lookup(w, r.problemKey).reference))
  }

  // ---------- resolution ----------

  function ReferenceTime(issue: Issue): real {
    if issue.lastSeen.At? then issue.lastSeen.time else issue.lastCommentAt
  }

  predicate Stale(c: Config, issue: Issue, now: real) {
    issue.status == Open && now - ReferenceTime(issue) >= c.resolveAfter
  }

  /** The sweep closes this issue; `refused` are the references whose `resolve` fails. */
  predicate Closes(c: Config, w: World, issue: Issue, now: real, refused: set<Ref>) {
    !c.dryRun && Stale(c, issue, now) && issue.reference in w.tickets && issue.reference !in refused
  }

  function Retire(issue: Issue): Issue {
    issue.(status := Resolved, history := issue.history + [Closed])
  }

  function ClosedKeys(c: Config, w: World, now: real, refused: set<Ref>): set<Key> {
    set k | k in w.ledger && Closes(c, w, w.ledger[k], now, refused)
  }

  function ReferencesOf(ledger: map<Key, Issue>, keys: set<Key>): set<Ref> {
    set k | k in keys && k in ledger :: ledger[k].reference
  }

  function Shut(tickets: map<Ref, Ticket>, refs: set<Ref>): map<Ref, Ticket> {
    map t | t in tickets :: if t in refs then tickets[t].(open := false) else tickets[t]
  }

  function Sweep(c: Config, w: World, now: real, refused: set<Ref>): World {
    var keys := ClosedKeys(c, w, now, refused);
    World(map k | k in w.ledger :: if k in keys then Retire(w.ledger[k]) else w.ledger[k],
          Shut(w.tickets, ReferencesOf(w.ledger, keys)),
          w.log,
          w.counts.(resolved := w.counts.resolved + |keys|))
  }

  // ---------- runs ----------

  /** Everything that can happen to the ledger and the tracker. */
  datatype Event =
    | Handled(r: Record, now: real, replies: Replies)
    | Swept(now: real, refused: set<Ref>)
    | ClosedOutside(now: real, reference: Ref)
    | Restarted(now: real)

  function Step(c: Config, w: World, e: Event): World {
    match e
    case Handled(r, now, replies) => Perform(w, r, now, Decide(c, w, r, now, replies))
    case Swept(now, refused) => Sweep(c, w, now, refused)
    case ClosedOutside(_, reference) =>
      if reference in w.tickets
      then w.(tickets := w.tickets[reference := w.tickets[reference].(open := false)])
      else w
    case Restarted(_) => w.(counts := NO_COUNTS)
  }

  function Run(c: Config, w: World, es: seq<Event>): World {
    if es == [] then w else Step(c, Run(c, w, es[..|es| - 1]), es[|es| - 1])
  }

  /** A tracker hands out references it has never handed out before. */
  predicate FreshReply(w: World, e: Event) {
    e.Handled? && e.replies.created.Some? ==>
      e.replies.created.value != "" && e.replies.created.value !in w.tickets
  }

  ghost predicate FreshReplies(c: Config, w: World, es: seq<Event>) {
    forall i | 0 <= i < |es| :: FreshReply(Run(c, w, es[..i]), es[i])
  }
}
