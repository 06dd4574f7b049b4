/** The lines before and after a matching line, collected while lines stream past. */
module ContextWindows {
  import opened Basics

  const CONTEXT_LINES: nat := 50

  /** Which pattern a line matches, if any. */
  type Matcher = string -> Option<string>

  datatype ErrorEvent = ErrorEvent(number: nat, line: string, pattern: string, before: seq<string>, after: seq<string>)

  /**
    One thing that happens to a file's windows: another line, a poll that brought none, or the buffer
    shared by all files overflowing.
   */
  datatype Input = Line(text: string) | Quiet | Trim

  datatype State = State(count: nat, before: seq<string>, pending: seq<ErrorEvent>, emitted: seq<ErrorEvent>)

  function Last(lines: seq<string>): seq<string> {
    if |lines| <= CONTEXT_LINES then lines else lines[|lines| - CONTEXT_LINES..]
  }

  function Fed(e: ErrorEvent, line: string): ErrorEvent {
    if |e.after| < CONTEXT_LINES then e.(after := e.after + [line]) else e
  }

  function FedAll(pending: seq<ErrorEvent>, line: string): seq<ErrorEvent> {
    if pending == [] then [] else FedAll(pending[..|pending| - 1], line) + [Fed(pending[|pending| - 1], line)]
  }

  function Ready(pending: seq<ErrorEvent>, force: bool): seq<ErrorEvent> {
    if pending == [] then []
    else
      var before, last := Ready(pending[..|pending| - 1], force), pending[|pending| - 1];
      if force || |last.after| >= CONTEXT_LINES then before + [last] else before
  }

  function Waiting(pending: seq<ErrorEvent>, force: bool): seq<ErrorEvent> {
    if pending == [] then []
    else
      var before, last := Waiting(pending[..|pending| - 1], force), pending[|pending| - 1];
      if force || |last.after| >= CONTEXT_LINES then before else before + [last]
  }

  function Noticed(m: Matcher, number: nat, line: string, before: seq<string>): seq<ErrorEvent> {
    if m(line).Some? then [ErrorEvent(number, line, m(line).value, before, [])] else []
  }

  /** What an overflow keeps: the most recent pending error. */
  function Kept(pending: seq<ErrorEvent>): seq<ErrorEvent> {
    if pending == [] then [] else [pending[|pending| - 1]]
  }

  function Next(m: Matcher, s: State, x: Input): State {
    match x
    case Trim => s.(before := [], pending := Kept(s.pending))
    case Quiet => s.(pending := Waiting(s.pending, true), emitted := s.emitted + Ready(s.pending, true))
    case Line(line) =>
      var fed := FedAll(s.pending, line);
      State(s.count + 1, Last(s.before + [line]),
            Waiting(fed, false) + Noticed(m, s.count + 1, line, s.before), s.emitted + Ready(fed, false))
  }

  function Run(m: Matcher, h: seq<Input>): State {
    if h == [] then State(0, [], [], []) else Next(m, Run(m, h[..|h| - 1]), h[|h| - 1])
  }

  class WindowedFile {
    const matcher: Matcher
    var lineNumber: nat
    var contextBefore: seq<string>
    var pending: seq<ErrorEvent>
    /** Everything read so far, and everything handed on. */
    ghost var history: seq<Input>
    ghost var reported: seq<ErrorEvent>

    ghost predicate Valid()
      reads this
    {
      Shows(Run(matcher, history))
    }

    ghost predicate Shows(s: State)
      reads this
    {
      s.count == lineNumber && s.before == contextBefore && s.pending == pending && s.emitted == reported
    }

    constructor (matcher: Matcher)
      ensures Valid() && this.matcher == matcher && history == [] && reported == []
    {
      this.matcher := matcher;
      lineNumber, contextBefore, pending, history, reported := 0, [], [], [], [];
    }

    /** Hands on the errors whose trailing context is complete, or all of them. */
    method FlushPending(force: bool) returns (ready: seq<ErrorEvent>)
      modifies this`pending, this`reported
      ensures ready == Ready(old(pending), force) && pending == Waiting(old(pending), force)
      ensures reported == old(reported) + ready
    {
      ready := [];
      var waiting: seq<ErrorEvent> := [];
      for i := 0 to |pending|
        invariant pending == old(pending) && reported == old(reported)
        invariant ready == Ready(pending[..i], force) && waiting == Waiting(pending[..i], force)
      {
        assert pending[..i + 1][..i] == pending[..i];
        if force || |pending[i].after| >= CONTEXT_LINES {
          ready := ready + [pending[i]];
        } else {
          waiting := waiting + [pending[i]];
        }
      }
      assert pending[..|pending|] == pending;
      pending, reported := waiting, reported + ready;
    }

    method FeedPending(line: string)
      modifies this`pending
      ensures pending == FedAll(old(pending), line)
    {
      var done: seq<ErrorEvent> := [];
      for i := 0 to |pending|
        invariant pending == old(pending) && done == FedAll(pending[..i], line)
      {
        assert pending[..i + 1][..i] == pending[..i];
        var event := pending[i];
        if |event.after| < CONTEXT_LINES {
          event := event.(after := event.after + [line]);
        }
        done := done + [event];
      }
      assert pending[..|pending|] == pending;
      pending := done;
    }

    /** The buffer overflowed, on a line of this file or of another. */
    method TrimContext()
      requires Valid()
      modifies this`contextBefore, this`pending, this`history
      ensures Valid() && history == old(history) + [Trim] && reported == old(reported)
    {
      contextBefore := [];
      if |pending| > 0 {
        pending := pending[|pending| - 1..];
      }
      history := history + [Trim];
      assert history[..|history| - 1] == old(history);
    }

    /** One more line; it may make the buffer overflow before it is looked at. */
    method TakeLine(line: string, overflows: bool) returns (emitted: seq<ErrorEvent>)
      requires Valid()
      modifies this
      ensures Valid() && history == Taken(old(history), line, overflows) && reported == old(reported) + emitted
    {
      if overflows {
        TrimContext();
      }
      emitted := ReadLine(line);
    }

    method ReadLine(line: string) returns (emitted: seq<ErrorEvent>)
      requires Valid()
      modifies this
      ensures Valid() && history == old(history) + [Line(line)] && reported == old(reported) + emitted
    {
      lineNumber := lineNumber + 1;
      FeedPending(line);
      emitted := FlushPending(false);
      NoteMatch(line);
      PushContext(line);
      history := history + [Line(line)];
      assert history[..|history| - 1] == old(history);
    }

    method NoteMatch(line: string)
      modifies this`pending
      ensures pending == old(pending) + Noticed(matcher, lineNumber, line, contextBefore)
    {
      var matched := matcher(line);
      if matched.Some? {
        pending := pending + [ErrorEvent(lineNumber, line, matched.value, contextBefore, [])];
      }
    }

    method PushContext(line: string)
      modifies this`contextBefore
      ensures contextBefore == Last(old(contextBefore) + [line])
    {
      contextBefore := contextBefore + [line];
      if |contextBefore| > CONTEXT_LINES {
        contextBefore := contextBefore[|contextBefore| - CONTEXT_LINES..];
      }
    }

    /** Takes what one poll of the file returned; `overflows` tells which lines overflow the buffer. */
    method ProcessFile(lines: seq<string>, overflows: nat -> bool) returns (emitted: seq<ErrorEvent>)
      requires Valid()
      modifies this
      ensures Valid() && history == Polled(old(history), lines, overflows)
      ensures reported == old(reported) + emitted
    {
      if lines == [] {
        emitted := ReleaseAll();
      } else {
        emitted := TakeLines(lines, overflows);
        assert lines[..|lines|] == lines;
      }
    }

    method ReleaseAll() returns (emitted: seq<ErrorEvent>)
      requires Valid()
      modifies this
      ensures Valid() && history == old(history) + [Quiet] && reported == old(reported) + emitted
    {
      emitted := FlushPending(true);
      history := history + [Quiet];
      assert history[..|history| - 1] == old(history);
    }

    /** The first `i` lines of a batch have been taken, and these events handed on. */
    ghost predicate TakenUpTo(i: nat, lines: seq<string>, overflows: nat -> bool, h: seq<Input>, r: seq<ErrorEvent>, emitted: seq<ErrorEvent>)
      reads this
    {
      i <= |lines| && Valid() && history == AllTaken(h, lines[..i], overflows) && reported == r + emitted
    }

    method TakeLines(lines: seq<string>, overflows: nat -> bool) returns (emitted: seq<ErrorEvent>)
      requires Valid()
      modifies this
      ensures TakenUpTo(|lines|, lines, overflows, old(history), old(reported), emitted)
    {
      emitted := [];
      for i := 0 to |lines|
        invariant TakenUpTo(i, lines, overflows, old(history), old(reported), emitted)
      {
        emitted := TakeNext(i, lines, overflows, emitted, old(history), old(reported));
      }
    }

    method TakeNext(i: nat, lines: seq<string>, overflows: nat -> bool, emitted: seq<ErrorEvent>,
                    ghost h: seq<Input>, ghost r: seq<ErrorEvent>) returns (emitted': seq<ErrorEvent>)
      requires i < |lines| && TakenUpTo(i, lines, overflows, h, r, emitted)
      modifies this
      ensures TakenUpTo(i + 1, lines, overflows, h, r, emitted')
    {
      assert lines[..i + 1][..i] == lines[..i];
      var more := TakeLine(lines[i], overflows(i));
      emitted' := emitted + more;
    }
  }

  function Taken(h: seq<Input>, line: string, overflows: bool): seq<Input> {
    (if overflows then h + [Trim] else h) + [Line(line)]
  }

  function AllTaken(h: seq<Input>, lines: seq<string>, overflows: nat -> bool): seq<Input> {
    if lines == [] then h
    else Taken(AllTaken(h, lines[..|lines| - 1], overflows), lines[|lines| - 1], overflows(|lines| - 1))
  }

  /** What happens to the windows in one poll. */
  function Polled(h: seq<Input>, lines: seq<string>, overflows: nat -> bool): seq<Input> {
    if lines == [] then h + [Quiet] else AllTaken(h, lines, overflows)
  }
}
