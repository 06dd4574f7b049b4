/** The ledger, the tracker and the lifecycle that drives them, as objects updated in place. */
module Lifecycle {
  import opened Basics
  import opened LifecycleModel

  class IssueState {
    const problemKey: Key
    var reference: Ref
    var status: Status
    var lastCommentAt: real
    var lastSeen: Stamp
    var lastRootCause: string
    var reported: int
    var history: seq<Action>

    ghost function Value(): Issue
      reads this
    {
      Issue(reference, status, lastCommentAt, lastSeen, lastRootCause, reported, history)
    }

    constructor (key: Key, past: seq<Action>)
      ensures problemKey == key && Value() == Blank(past)
    {
      problemKey := key;
      reference, status, lastCommentAt, lastSeen := "", Untracked, 0.0, Missing;
      lastRootCause, reported, history := "", 0, past;
    }

    /** `IssueState(**value)`: rebuilt from its saved fields. */
    constructor Saved(key: Key, value: Issue)
      ensures problemKey == key && Value() == value
    {
      problemKey := key;
      reference, status, lastCommentAt, lastSeen := value.reference, value.status, value.lastCommentAt, value.lastSeen;
      lastRootCause, reported, history := value.lastRootCause, value.reported, value.history;
    }

    method NoteOpened(reference: Ref, r: Record, now: real)
      modifies this
      ensures Value() == NewIssue(old(history), reference, r, now)
    {
      this.reference := reference;
      status := Open;
      lastCommentAt := now;
      lastSeen := r.lastSeen;
      lastRootCause := r.rootCause;
      reported := r.totalOccurrences;
      history := history + [Created(reference)];
    }

    method NoteQuietly(r: Record)
      modifies this
      ensures Value() == QuietIssue(old(Value()), r)
    {
      lastSeen := StampOr(r.lastSeen, lastSeen);
      reported := CountOr(r.totalOccurrences, reported);
    }

    method NotePosted(r: Record, now: real)
      modifies this
      ensures Value() == PostedIssue(old(Value()), r, now)
    {
      lastCommentAt := now;
      lastSeen := StampOr(r.lastSeen, lastSeen);
      lastRootCause := OrElse(r.rootCause, lastRootCause);
      reported := r.totalOccurrences;
    }

    method NoteRevived(now: real)
      modifies this
      ensures Value() == RevivedIssue(old(Value()), now)
    {
      status := Open;
      lastCommentAt := now;
      history := history + [Reopened];
    }

    method NoteRetired()
      modifies this
      ensures Value() == Retire(old(Value()))
    {
      status := Resolved;
      history := history + [Closed];
    }
  }

  /** The ledger file, if it can be read: each entry's fields, if they are those of an issue. */
  type Saved = Option<map<Key, Option<Issue>>>

  function Entries(document: Saved): map<Key, Issue> {
    if document.None? then map[]
    else map k | k in document.value && document.value[k].Some? :: document.value[k].value
  }

  /** The document written for a ledger. */
  function Document(ledger: map<Key, Issue>): Saved {
    Some(map k | k in ledger :: Some(ledger[k]))
  }

  /** Loading gives back the ledger that was saved. */
  lemma LoadsWhatWasSaved(ledger: map<Key, Issue>)
    ensures Entries(Document(ledger)) == ledger
  {
    assert Entries(Document(ledger)).Keys == ledger.Keys;
  }

  /** Live state objects by problem, and the document last written for them. */
  class IssueLedger {
    var states: map<Key, IssueState>
    var saved: map<Key, Issue>
    ghost var Repr: set<object>

    /** The file on disk is the ledger in memory. */
    ghost predicate Valid()
      reads this, Repr
    {
      && this in Repr
      && saved.Keys == states.Keys
      && (forall k | k in states ::
            states[k] in Repr && states[k] as object != this && states[k].problemKey == k
            && states[k].Value() == saved[k])
    }

    /** Entries that are not an issue's fields are skipped; without a readable document the ledger is empty. */
    constructor Load(document: Saved)
      ensures Valid() && fresh(Repr) && saved == Entries(document)
    {
      states, saved := map[], Entries(document);
      Repr := {this};
      new;
      if document.None? {
        return;
      }
      var todo := document.value.Keys;
      while todo != {}
        invariant this in Repr && fresh(Repr) && saved == Entries(document)
        invariant todo <= document.value.Keys && states.Keys == saved.Keys - todo
        invariant forall k | k in states ::
                    states[k] in Repr && states[k] as object != this && states[k].problemKey == k
                    && states[k].Value() == saved[k]
        decreases todo
      {
        var k :| k in todo;
        if document.value[k].Some? {
          var state := new IssueState.Saved(k, document.value[k].value);
          states := states[k := state];
          Repr := Repr + {state};
        }
        todo := todo - {k};
      }
    }

    method Get(key: Key) returns (issue: Issue)
      requires Valid()
      ensures issue == if key in saved then saved[key] else Blank([])
    {
      if key in states {
        var state := states[key];
        issue := Issue(state.reference, state.status, state.lastCommentAt, state.lastSeen, state.lastRootCause,
                       state.reported, state.history);
      } else {
        issue := Blank([]);
      }
    }

    /** Write the whole ledger out after `key`'s state changed. */
    method Save(key: Key)
      requires this in Repr && saved.Keys <= states.Keys == saved.Keys + {key}
      requires forall k | k in states ::
                 states[k] in Repr && states[k] as object != this && states[k].problemKey == k
                 && (k != key ==> states[k].Value() == saved[k])
      modifies `saved
      ensures Valid() && saved == old(saved)[key := states[key].Value()]
    {
      saved := map k | k in states :: Issue(states[k].reference, states[k].status, states[k].lastCommentAt,
                                            states[k].lastSeen, states[k].lastRootCause, states[k].reported,
                                            states[k].history);
    }

    method PutOpened(key: Key, past: seq<Action>, reference: Ref, r: Record, now: real)
      requires Valid()
      modifies this
      ensures Valid() && fresh(Repr - old(Repr))
      ensures saved == old(saved)[key := NewIssue(past, reference, r, now)]
    {
      var state := new IssueState(key, past);
      state.NoteOpened(reference, r, now);
      states := states[key := state];
      Repr := Repr + {state};
      Save(key);
    }

    method PutQuiet(key: Key, r: Record)
      requires Valid() && key in saved
      modifies this, Repr
      ensures Valid() && Repr == old(Repr)
      ensures saved == old(saved)[key := QuietIssue(old(saved)[key], r)]
    {
      states[key].NoteQuietly(r);
      Save(key);
    }

    method PutPosted(key: Key, r: Record, now: real)
      requires Valid() && key in saved
      modifies this, Repr
      ensures Valid() && Repr == old(Repr)
      ensures saved == old(saved)[key := PostedIssue(old(saved)[key], r, now)]
    {
      states[key].NotePosted(r, now);
      Save(key);
    }

    method PutRevived(key: Key, now: real)
      requires Valid() && key in saved
      modifies this, Repr
      ensures Valid() && Repr == old(Repr)
      ensures saved == old(saved)[key := RevivedIssue(old(saved)[key], now)]
    {
      states[key].NoteRevived(now);
      Save(key);
    }

    method PutRetired(key: Key)
      requires Valid() && key in saved
      modifies this, Repr
      ensures Valid() && Repr == old(Repr)
      ensures saved == old(saved)[key := Retire(old(saved)[key])]
    {
      states[key].NoteRetired();
      Save(key);
    }

    method OpenStates() returns (keys: set<Key>)
      requires Valid()
      ensures keys <= saved.Keys && forall k | k in saved :: k in keys <==> saved[k].status == Open
    {
      keys := set k | k in states && states[k].status == Open;
    }
  }

  /** The external tracker: its issues, and the operations it has accepted. */
  class IssueSink {
    var tickets: map<Ref, Ticket>
    var log: seq<Entry>

    constructor ()
      ensures tickets == map[] && log == []
    {
      tickets, log := map[], [];
    }

    method Create(problem: Key, now: real, reply: Option<Ref>)
      modifies this
      ensures tickets == if reply.Some? then old(tickets)[reply.value := Ticket(problem, true)] else old(tickets)
      ensures log == old(log) + if reply.Some? then [Entry(problem, reply.value, Opened, now)] else []
    {
      if reply.Some? {
        tickets := tickets[reply.value := Ticket(problem, true)];
        log := log + [Entry(problem, reply.value, Opened, now)];
      }
    }

    method Comment(problem: Key, reference: Ref, deed: Deed, now: real, willing: bool) returns (ok: bool)
      modifies this
      ensures ok == (willing && reference in old(tickets))
      ensures tickets == old(tickets)
      ensures log == old(log) + if ok then [Entry(problem, reference, deed, now)] else []
    {
      ok := willing && reference in tickets;
      if ok {
        log := log + [Entry(problem, reference, deed, now)];
      }
    }

    method Reopen(problem: Key, reference: Ref, now: real, willing: bool) returns (ok: bool)
      modifies this
      ensures ok == (willing && reference in old(tickets))
      ensures ok ==> tickets == old(tickets)[reference := old(tickets)[reference].(open := true)]
      ensures ok ==> log == old(log) + [Entry(problem, reference, Revived, now)]
      ensures !ok ==> tickets == old(tickets) && log == old(log)
    {
      ok := willing && reference in tickets;
      if ok {
        tickets := tickets[reference := tickets[reference].(open := true)];
        log := log + [Entry(problem, reference, Revived, now)];
      }
    }

    method Resolve(reference: Ref, refused: set<Ref>) returns (ok: bool)
      modifies this
      ensures ok == (reference in old(tickets) && reference !in refused)
      ensures tickets == if ok then old(tickets)[reference := old(tickets)[reference].(open := false)] else old(tickets)
      ensures log == old(log)
    {
      ok := reference in tickets && reference !in refused;
      if ok {
        tickets := tickets[reference := tickets[reference].(open := false)];
      }
    }
  }

  /** What `_reopen` does with an issue that is resolved, or was closed behind the ledger's back. */
  lemma ReopeningDecides(c: Config, w: World, r: Record, now: real, replies: Replies)
    requires SeverityAtLeast(r.severity, c.minSeverity) && r.problemKey != ""
    requires var issue := Lookup(w, r.problemKey);
             || issue.status == Resolved
             || (issue.status == Open && Speaks(c, issue, r, now) && IsOpen(w, issue.reference, replies) == Some(false))
    ensures var issue, d := Lookup(w, r.problemKey), Decide(c, w, r, now, replies);
            && (c.dryRun ==> d == Announce)
            && (!c.dryRun ==> d == if Revives(c, w, issue.reference, replies) then Decision.Revive else Renewal(issue, replies))
  {
  }

  predicate Revives(c: Config, w: World, reference: Ref, replies: Replies) {
    c.supportsReopen && reference != "" && Accepts(w, reference, replies.reopens)
  }

  /** A fresh issue in place of an old one, linked to it when both are named and the link is accepted. */
  function Renewal(issue: Issue, replies: Replies): Decision {
    match replies.created
    case None => Refused
    case Some(reference) => OpenIssue(reference, issue.reference != "" && reference != "" && replies.links)
  }

  /** The ledger with the issues of some problems retired. */
  ghost function RetireAll(ledger: map<Key, Issue>, keys: set<Key>): map<Key, Issue> {
    map k | k in ledger :: if k in keys then Retire(ledger[k]) else ledger[k]
  }

  ghost function CloseAll(w: World, keys: set<Key>): map<Ref, Ticket>
    requires keys <= w.ledger.Keys
  {
    map t | t in w.tickets ::
      if exists k :: k in keys && w.ledger[k].reference == t then w.tickets[t].(open := false) else w.tickets[t]
  }

  /** The world with one more issue closed. */
  ghost function RetireOne(w: World, k: Key): World
    requires k in w.ledger && w.ledger[k].reference in w.tickets
  {
    var issue := w.ledger[k];
    World(w.ledger[k := Retire(issue)],
          w.tickets[issue.reference := w.tickets[issue.reference].(open := false)],
          w.log, w.counts.(resolved := w.counts.resolved + 1))
  }

  /** The world with the issues of some problems closed. */
  ghost function Retired(w: World, keys: set<Key>): World
    requires keys <= w.ledger.Keys
  {
    World(RetireAll(w.ledger, keys), CloseAll(w, keys), w.log, w.counts.(resolved := w.counts.resolved + |keys|))
  }

  lemma NoneRetired(w: World)
    ensures Retired(w, {}) == w
  {
    assert RetireAll(w.ledger, {}) == w.ledger;
    assert CloseAll(w, {}) == w.tickets;
  }

  lemma OneFewer(all: set<Key>, todo: set<Key>, k: Key)
    requires k in todo
    ensures all - (todo - {k}) == if k in all then all - todo + {k} else all - todo
  {
  }

  lemma UntouchedByOthers(c: Config, w: World, keys: set<Key>, k: Key, now: real, refused: set<Ref>)
    requires keys <= w.ledger.Keys && k in w.ledger && k !in keys
    ensures k in Retired(w, keys).ledger && Retired(w, keys).ledger[k] == w.ledger[k]
    ensures Closes(c, Retired(w, keys), w.ledger[k], now, refused) <==> Closes(c, w, w.ledger[k], now, refused)
  {
  }

  lemma OneMoreRetired(w: World, keys: set<Key>, k: Key)
    requires keys <= w.ledger.Keys && k in w.ledger && k !in keys && w.ledger[k].reference in w.tickets
    ensures k in Retired(w, keys).ledger
    ensures Retired(w, keys).ledger[k].reference in Retired(w, keys).tickets
    ensures Retired(w, keys + {k}) == RetireOne(Retired(w, keys), k)
  {
    var before, after := CloseAll(w, keys), CloseAll(w, keys + {k});
    forall t | t in w.tickets && t != w.ledger[k].reference ensures after[t] == before[t] {
      if j :| j in keys + {k} && w.ledger[j].reference == t {
        assert j in keys;
      }
    }
    assert k in keys + {k};
    assert after == before[w.ledger[k].reference := before[w.ledger[k].reference].(open := false)];
    assert RetireAll(w.ledger, keys + {k}) == RetireAll(w.ledger, keys)[k := Retire(w.ledger[k])];
  }

  lemma AllRetired(c: Config, w: World, now: real, refused: set<Ref>)
    ensures Sweep(c, w, now, refused) == Retired(w, ClosedKeys(c, w, now, refused))
  {
    var closing, w' := ClosedKeys(c, w, now, refused), Sweep(c, w, now, refused);
    assert w'.ledger == RetireAll(w.ledger, closing);
    assert w'.tickets == CloseAll(w, closing);
  }

  class IssueLifecycle {
    const config: Config
    const sink: IssueSink
    const ledger: IssueLedger
    var created: nat
    var updated: nat
    var resolved: nat
    var reopened: nat
    var skipped: nat

    ghost predicate Valid()
      reads ledger, ledger.Repr
    {
      ledger.Valid() && this !in ledger.Repr && sink !in ledger.Repr
    }

    ghost function Counters(): Counts
      reads this
    {
      Counts(created, updated, resolved, reopened, skipped)
    }

    ghost function Now(): World
      reads this, ledger, sink
    {
      World(ledger.saved, sink.tickets, sink.log, Counters())
    }

    /** The objects and the result are what `d` prescribes from `w`. */
    ghost predicate Did(w: World, r: Record, now: real, d: Decision, outcome: Outcome)
      reads this, ledger, sink
    {
      Now() == Perform(w, r, now, d) && outcome == OutcomeOf(w, r, d)
    }

    predicate Tracks(r: Record) {
      SeverityAtLeast(r.severity, config.minSeverity) && r.problemKey != ""
    }

    /** Start, or restart from the saved document. */
    constructor (config: Config, sink: IssueSink, document: Saved)
      ensures Valid() && this.config == config && this.sink == sink
      ensures fresh(ledger) && fresh(ledger.Repr)
      ensures Now() == World(Entries(document), sink.tickets, sink.log, NO_COUNTS)
    {
      this.config, this.sink := config, sink;
      created, updated, resolved, reopened, skipped := 0, 0, 0, 0, 0;
      ledger := new IssueLedger.Load(document);
    }

    method Handle(r: Record, now: real, replies: Replies) returns (outcome: Outcome, ghost d: Decision)
      requires Valid()
      modifies this, ledger, ledger.Repr, sink
      ensures Valid() && fresh(ledger.Repr - old(ledger.Repr))
      ensures d == Decide(config, old(Now()), r, now, replies)
      ensures Did(old(Now()), r, now, d, outcome)
    {
      d := Decide(config, Now(), r, now, replies);
      if !SeverityAtLeast(r.severity, config.minSeverity) {
        skipped := skipped + 1;
        return Returned(None), d;
      }
      if r.problemKey == "" {
        return Returned(None), d;
      }
      outcome, d := Dispatch(r, now, replies);
    }

    /** The record's problem decides by its state: none, resolved or open. */
    method Dispatch(r: Record, now: real, replies: Replies) returns (outcome: Outcome, ghost d: Decision)
      requires Valid() && Tracks(r)
      modifies this, ledger, ledger.Repr, sink
      ensures Valid() && fresh(ledger.Repr - old(ledger.Repr))
      ensures d == Decide(config, old(Now()), r, now, replies)
      ensures Did(old(Now()), r, now, d, outcome)
    {
      var state := ledger.Get(r.problemKey);
      if state.status == Untracked {
        outcome, d := Begin(state, r, now, replies);
      } else if state.status == Resolved {
        outcome, d := Reopen(state, r, now, replies);
      } else {
        outcome, d := Update(state, r, now, replies);
      }
    }

    /** The first issue of a problem. */
    method Begin(state: Issue, r: Record, now: real, replies: Replies) returns (outcome: Outcome, ghost d: Decision)
      requires Valid() && Tracks(r) && state == Lookup(Now(), r.problemKey) && state.status == Untracked
      modifies this, ledger, sink
      ensures Valid() && fresh(ledger.Repr - old(ledger.Repr))
      ensures d == Decide(config, old(Now()), r, now, replies)
      ensures Did(old(Now()), r, now, d, outcome)
    {
      ghost var w := Now();
      d := Decide(config, w, r, now, replies);
      outcome := Create(state.history, r, now, replies);
      if d.OpenIssue? {
        WroteOne(w, r, now, d, outcome);
      } else {
        NothingDone(w, r, now, d);
      }
    }

    method Create(past: seq<Action>, r: Record, now: real, replies: Replies) returns (outcome: Outcome)
      requires Valid()
      modifies this, ledger, sink
      ensures Valid() && fresh(ledger.Repr - old(ledger.Repr))
      ensures config.dryRun ==> Now() == old(Now()) && outcome == Returned(None)
      ensures !config.dryRun && replies.created.None? ==> Now() == old(Now()) && outcome == Raised
      ensures !config.dryRun && replies.created.Some? ==>
                && outcome == Returned(replies.created)
                && ledger.saved == old(ledger.saved)[r.problemKey := NewIssue(past, replies.created.value, r, now)]
                && sink.tickets == old(sink.tickets)[replies.created.value := Ticket(r.problemKey, true)]
                && sink.log == old(sink.log) + [Entry(r.problemKey, replies.created.value, Opened, now)]
                && Counters() == NextCounts(old(Counters()), OpenIssue(replies.created.value, false))
    {
      if config.dryRun {
        return Returned(None);
      }
      sink.Create(r.problemKey, now, replies.created);
      if replies.created.None? {
        assert sink.log == old(sink.log);
        return Raised;
      }
      ledger.PutOpened(r.problemKey, past, replies.created.value, r, now);
      created := created + 1;
      outcome := Returned(replies.created);
    }

    method Update(state: Issue, r: Record, now: real, replies: Replies) returns (outcome: Outcome, ghost d: Decision)
      requires Valid() && Tracks(r) && state == Lookup(Now(), r.problemKey) && state.status == Open
      modifies this, ledger, ledger.Repr, sink
      ensures Valid() && fresh(ledger.Repr - old(ledger.Repr))
      ensures d == Decide(config, old(Now()), r, now, replies)
      ensures Did(old(Now()), r, now, d, outcome)
    {
      ghost var w := Now();
      var changed := AnalysisChanged(state, r);
      if !changed && !DueForComment(config, state, now) {
        ledger.PutQuiet(r.problemKey, r);
        outcome, d := Returned(Some(state.reference)), Quiet;
        WroteOne(w, r, now, Quiet, outcome);
        return;
      }
      if config.dryRun {
        NothingDone(w, r, now, Announce);
        return Returned(Some(state.reference)), Announce;
      }
      if replies.tellsOpen && state.reference in sink.tickets && !sink.tickets[state.reference].open {
        outcome, d := Reopen(state, r, now, replies);
        return;
      }
      outcome, d := Post(state, r, now, replies, if changed then Revised else Routine);
    }

    /** The tail of `_update`: say it on the tracker, and note that it was said. */
    method Post(state: Issue, r: Record, now: real, replies: Replies, deed: Deed) returns (outcome: Outcome, ghost d: Decision)
      requires Valid() && r.problemKey in ledger.saved && state == ledger.saved[r.problemKey]
      modifies this, ledger, ledger.Repr, sink
      ensures Valid() && fresh(ledger.Repr - old(ledger.Repr))
      ensures d == if Accepts(old(Now()), state.reference, replies.comments) then Decision.Post(deed) else Refused
      ensures Did(old(Now()), r, now, d, outcome)
    {
      ghost var w := Now();
      var ok := sink.Comment(r.problemKey, state.reference, deed, now, replies.comments);
      if !ok {
        NothingDone(w, r, now, Refused);
        return Raised, Refused;
      }
      ledger.PutPosted(r.problemKey, r, now);
      updated := updated + 1;
      outcome, d := Returned(Some(state.reference)), Decision.Post(deed);
      WroteOne(w, r, now, Decision.Post(deed), outcome);
    }

    method Reopen(state: Issue, r: Record, now: real, replies: Replies) returns (outcome: Outcome, ghost d: Decision)
      requires Valid() && Tracks(r) && state == Lookup(Now(), r.problemKey)
      requires || state.status == Resolved
               || (state.status == Open && Speaks(config, state, r, now)
                   && IsOpen(Now(), state.reference, replies) == Some(false))
      modifies this, ledger, ledger.Repr, sink
      ensures Valid() && fresh(ledger.Repr - old(ledger.Repr))
      ensures d == Decide(config, old(Now()), r, now, replies)
      ensures Did(old(Now()), r, now, d, outcome)
    {
      ghost var w := Now();
      ReopeningDecides(config, w, r, now, replies);
      if config.dryRun {
        NothingDone(w, r, now, Announce);
        return Returned(Some(state.reference)), Announce;
      }
      outcome, d := ReviveOrRenew(state, r, now, replies);
    }

    method ReviveOrRenew(state: Issue, r: Record, now: real, replies: Replies) returns (outcome: Outcome, ghost d: Decision)
      requires Valid() && !config.dryRun && state == Lookup(Now(), r.problemKey) && state.status != Untracked
      modifies this, ledger, ledger.Repr, sink
      ensures Valid() && fresh(ledger.Repr - old(ledger.Repr))
      ensures d == if Revives(config, old(Now()), state.reference, replies) then Decision.Revive
                   else Renewal(state, replies)
      ensures Did(old(Now()), r, now, d, outcome)
    {
      var done := false;
      if config.supportsReopen && state.reference != "" {
        outcome, done := Revive(state, r, now, replies);
        d := Decision.Revive;
      }
      if !done {
        outcome, d := Renew(state, r, now, replies);
      }
    }

    /** The reopening branch of `_reopen`; when the tracker refuses, nothing has happened yet. */
    method Revive(state: Issue, r: Record, now: real, replies: Replies) returns (outcome: Outcome, ok: bool)
      requires Valid() && r.problemKey in ledger.saved && state == ledger.saved[r.problemKey]
      modifies this, ledger, ledger.Repr, sink
      ensures Valid() && ledger.Repr == old(ledger.Repr)
      ensures ok == Accepts(old(Now()), state.reference, replies.reopens)
      ensures if ok then Did(old(Now()), r, now, Decision.Revive, outcome) else Now() == old(Now())
    {
      ghost var w := Now();
      outcome := Returned(Some(state.reference));
      ok := sink.Reopen(r.problemKey, state.reference, now, replies.reopens);
      if ok {
        ledger.PutRevived(r.problemKey, now);
        reopened := reopened + 1;
        WroteOne(w, r, now, Decision.Revive, outcome);
      }
    }

    /** The tail of `_reopen`: a fresh issue with the old one's history, linked to it. */
    method Renew(state: Issue, r: Record, now: real, replies: Replies) returns (outcome: Outcome, ghost d: Decision)
      requires Valid() && !config.dryRun && state == Lookup(Now(), r.problemKey)
      modifies this, ledger, sink
      ensures Valid() && fresh(ledger.Repr - old(ledger.Repr))
      ensures d == Renewal(state, replies)
      ensures Did(old(Now()), r, now, d, outcome)
    {
      ghost var w := Now();
      outcome := Create(state.history, r, now, replies);
      if outcome.Raised? {
        d := Refused;
        NothingDone(w, r, now, Refused);
        return;
      }
      var linked := false;
      if outcome.reference.Some? && outcome.reference.value != "" && state.reference != "" {
        linked := sink.Comment(r.problemKey, outcome.reference.value, CrossLinked, now, replies.links);
      }
      d := OpenIssue(replies.created.value, linked);
      WroteOne(w, r, now, OpenIssue(replies.created.value, linked), outcome);
    }

    /** Field by field, the objects are where `d` leads. */
    lemma WroteOne(w: World, r: Record, now: real, d: Decision, outcome: Outcome)
      requires Writes(d) && outcome == OutcomeOf(w, r, d)
      requires ledger.saved == w.ledger[r.problemKey := NextIssue(Lookup(w, r.problemKey), r, now, d)]
      requires sink.tickets == NextTickets(w.tickets, Lookup(w, r.problemKey), r.problemKey, d)
      requires sink.log == w.log + Deeds(Lookup(w, r.problemKey), r.problemKey, now, d)
      requires Counters() == NextCounts(w.counts, d)
      ensures Did(w, r, now, d, outcome)
    {
    }

    lemma NothingDone(w: World, r: Record, now: real, d: Decision)
      requires d.Announce? || d.Refused?
      ensures Perform(w, r, now, d) == w
    {
      assert w.log + [] == w.log;
    }

    /** One step of the sweep, on an issue that was open when it began. */
    method ResolveOne(k: Key, now: real, refused: set<Ref>) returns (ok: bool)
      requires Valid() && k in ledger.saved && ledger.saved[k].status == Open
      modifies this, ledger, ledger.Repr, sink
      ensures Valid() && ledger.Repr == old(ledger.Repr)
      ensures ok == Closes(config, old(Now()), old(ledger.saved)[k], now, refused)
      ensures !ok ==> Now() == old(Now())
      ensures ok ==> Now() == RetireOne(old(Now()), k)
    {
      var state := ledger.Get(k);
      if now - ReferenceTime(state) < config.resolveAfter || config.dryRun {
        return false;
      }
      ok := Close(k, state, refused);
    }

    method Close(k: Key, state: Issue, refused: set<Ref>) returns (ok: bool)
      requires Valid() && k in ledger.saved && state == ledger.saved[k]
      modifies this, ledger, ledger.Repr, sink
      ensures Valid() && ledger.Repr == old(ledger.Repr)
      ensures ok == (state.reference in old(sink.tickets) && state.reference !in refused)
      ensures Now() == if ok then RetireOne(old(Now()), k) else old(Now())
    {
      ok := sink.Resolve(state.reference, refused);
      if ok {
        ledger.PutRetired(k);
        resolved := resolved + 1;
      }
    }

    /** A sweep that began at `w` and is to close `closing`, with the open issues `todo` still to visit. */
    ghost predicate Sweeping(w: World, closing: set<Key>, todo: set<Key>, now: real, refused: set<Ref>)
      reads this, ledger, ledger.Repr, sink
    {
      && Valid() && closing <= w.ledger.Keys && todo <= w.ledger.Keys
      && Now() == Retired(w, closing - todo)
      && (forall k | k in todo :: w.ledger[k].status == Open)
      && (forall k | k in todo :: k in closing <==> Closes(config, w, w.ledger[k], now, refused))
    }

    /** The same step, seen from the whole sweep. */
    method ResolveNext(k: Key, now: real, refused: set<Ref>, ghost w: World, ghost closing: set<Key>, ghost todo: set<Key>)
      returns (ok: bool)
      requires k in todo && Sweeping(w, closing, todo, now, refused)
      modifies this, ledger, ledger.Repr, sink
      ensures ledger.Repr == old(ledger.Repr) && Sweeping(w, closing, todo - {k}, now, refused)
      ensures |closing - (todo - {k})| == |closing - todo| + if ok then 1 else 0
    {
      ghost var closed := closing - todo;
      UntouchedByOthers(config, w, closed, k, now, refused);
      OneFewer(closing, todo, k);
      ok := ResolveOne(k, now, refused);
      if ok {
        OneMoreRetired(w, closed, k);
      }
    }

    /** The loop of the sweep: the open issues in any order, closing those in `closing`. */
    method ResolveEach(candidates: set<Key>, now: real, refused: set<Ref>, ghost w: World, ghost closing: set<Key>)
      returns (count: nat)
      requires closing - candidates == {} && Sweeping(w, closing, candidates, now, refused)
      modifies this, ledger, ledger.Repr, sink
      ensures Valid() && ledger.Repr == old(ledger.Repr)
      ensures Now() == Retired(w, closing) && count == |closing|
    {
      count := 0;
      var todo := candidates;
      while todo != {}
        invariant ledger.Repr == old(ledger.Repr) && count == |closing - todo|
        invariant Sweeping(w, closing, todo, now, refused)
        decreases todo
      {
        var k :| k in todo;
        var ok := ResolveNext(k, now, refused, w, closing, todo);
        if ok {
          count := count + 1;
        }
        todo := todo - {k};
      }
      assert closing - todo == closing;
    }

    /** What is closed, and the resulting state, do not depend on the order of the visits. */
    method ResolveStale(now: real, refused: set<Ref>) returns (count: nat)
      requires Valid()
      modifies this, ledger, ledger.Repr, sink
      ensures Valid() && ledger.Repr == old(ledger.Repr)
      ensures Now() == Sweep(config, old(Now()), now, refused)
      ensures count == |ClosedKeys(config, old(Now()), now, refused)|
    {
      var candidates := ledger.OpenStates();
      ghost var w := Now();
      NoneRetired(w);
      assert ClosedKeys(config, w, now, refused) - candidates == {};
      count := ResolveEach(candidates, now, refused, w, ClosedKeys(config, w, now, refused));
      AllRetired(config, w, now, refused);
    }
  }
}
