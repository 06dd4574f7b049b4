/** Context windows cut from a stream agree with windows cut from the finished log. */
module ContextRuns {
  import opened Basics
  import opened ContextWindows

  // ---------- the same windows, cut from the finished log ----------

  function Lines(h: seq<Input>): seq<string> {
    if h == [] then []
    else Lines(h[..|h| - 1]) + if h[|h| - 1].Line? then [h[|h| - 1].text] else []
  }

  /** How many lines had been read at the last overflow. */
  function Cleared(h: seq<Input>): (cleared: nat)
    ensures cleared <= |Lines(h)|
  {
    if h == [] then 0
    else if h[|h| - 1].Trim? then |Lines(h)|
    else Cleared(h[..|h| - 1])
  }

  /** For every line, where its leading context starts: the last overflow before it. */
  function Starts(h: seq<Input>): (starts: seq<nat>)
    ensures |starts| == |Lines(h)| && forall i | 0 <= i < |starts| :: starts[i] <= i
  {
    if h == [] then []
    else if h[|h| - 1].Line? then Starts(h[..|h| - 1]) + [Cleared(h[..|h| - 1])]
    else Starts(h[..|h| - 1])
  }

  /** A quiet poll came after line `i`. */
  predicate Released(h: seq<Input>, i: nat) {
    h != [] && (Released(h[..|h| - 1], i) || (h[|h| - 1].Quiet? && i < |Lines(h[..|h| - 1])|))
  }

  /** How many lines were read before the first quiet poll after line `i`, or so far. */
  function Horizon(h: seq<Input>, i: nat): nat {
    if h == [] then 0
    else if Released(h[..|h| - 1], i) then Horizon(h[..|h| - 1], i)
    else |Lines(h)|
  }

  function Least(a: int, b: int): int {
    if a <= b then a else b
  }

  lemma {:induction false} HorizonIsWithin(h: seq<Input>, i: nat)
    requires i < |Lines(h)|
    ensures i < Horizon(h, i) <= |Lines(h)|
  {
    var front := h[..|h| - 1];
    if Released(front, i) {
      ReleasedIsPast(front, i);
      HorizonIsWithin(front, i);
    }
  }

  lemma {:induction false} ReleasedIsPast(h: seq<Input>, i: nat)
    requires Released(h, i)
    ensures i < |Lines(h)|
  {
    if Released(h[..|h| - 1], i) {
      ReleasedIsPast(h[..|h| - 1], i);
    }
  }

  lemma {:induction false} LinesGrow(h: seq<Input>, k: nat)
    requires k <= |h|
    ensures Lines(h[..k]) <= Lines(h)
  {
    if k < |h| {
      LinesGrow(h[..|h| - 1], k);
      assert h[..|h| - 1][..k] == h[..k];
    } else {
      assert h[..k] == h;
    }
  }

  function Most(a: int, b: int): int {
    if a >= b then a else b
  }

  /** The lines before line `i`, from `start` on and at most 50 of them. */
  function Leading(lines: seq<string>, start: nat, i: nat): seq<string>
    requires start <= i <= |lines|
  {
    lines[Most(start, i - 50)..i]
  }

  lemma LastIsLeading(lines: seq<string>, start: nat, i: nat)
    requires start <= i <= |lines|
    ensures Last(lines[start..i]) == Leading(lines, start, i)
  {
  }

  /**
    The event line `i` should give: the 50 lines around it, cut short before it by an overflow and
    after it by a quiet poll.
   */
  function EventAt(m: Matcher, h: seq<Input>, i: nat): ErrorEvent
    requires i < |Lines(h)| && m(Lines(h)[i]).Some?
  {
    var lines := Lines(h);
    HorizonIsWithin(h, i);
    ErrorEvent(i + 1, lines[i], m(lines[i]).value, Leading(lines, Starts(h)[i], i), lines[i + 1..Least(i + 51, Horizon(h, i))])
  }

  /** A later line matches. */
  predicate Rematched(m: Matcher, lines: seq<string>, i: nat) {
    exists j | i < j < |lines| :: m(lines[j]).Some?
  }

  /** The error of line `i` was dropped: the buffer overflowed while it waited, and a later one waited too. */
  predicate Lost(m: Matcher, h: seq<Input>, i: nat) {
    h != [] &&
    (var front := h[..|h| - 1];
     || Lost(m, front, i)
     || (h[|h| - 1].Trim? && Frontier(front) <= i < |Lines(front)| && Rematched(m, Lines(front), i)))
  }

  function Slot(m: Matcher, h: seq<Input>, i: nat): Option<ErrorEvent>
    requires i < |Lines(h)|
  {
    if m(Lines(h)[i]).Some? && !Lost(m, h, i) then Some(EventAt(m, h, i)) else None
  }

  /** For every line, the event it should give, if it matches and was not dropped. */
  function Slots(m: Matcher, h: seq<Input>): (slots: seq<Option<ErrorEvent>>)
    ensures |slots| == |Lines(h)|
  {
    seq(|Lines(h)|, i requires 0 <= i < |Lines(h)| => Slot(m, h, i))
  }

  /** The events found from `lo` up to `hi`, in line order. */
  function Chosen(slots: seq<Option<ErrorEvent>>, lo: nat, hi: nat): seq<ErrorEvent>
    requires hi <= |slots|
  {
    if hi <= lo then []
    else if slots[hi - 1].Some? then Chosen(slots, lo, hi - 1) + [slots[hi - 1].value]
    else Chosen(slots, lo, hi - 1)
  }

  /** The events of the matching lines from `lo` up to `hi`, in line order. */
  function Expected(m: Matcher, h: seq<Input>, lo: nat, hi: nat): seq<ErrorEvent>
    requires hi <= |Lines(h)|
  {
    Chosen(Slots(m, h), lo, hi)
  }

  /** Lines before this one have all the context they will get. */
  function Frontier(h: seq<Input>): nat {
    if h == [] then 0
    else if h[|h| - 1].Quiet? then |Lines(h)|
    else if h[|h| - 1].Trim? then Frontier(h[..|h| - 1])
    else
      var before, full := Frontier(h[..|h| - 1]), |Lines(h)| - 50;
      if full > before then full else before
  }

  /** A line is settled once 50 lines follow it or a quiet poll does. */
  lemma {:induction false} FrontierSettles(h: seq<Input>, i: nat)
    requires i < |Lines(h)|
    ensures Frontier(h) <= |Lines(h)|
    ensures i < Frontier(h) <==> Released(h, i) || i + 50 < |Lines(h)|
  {
    var front := h[..|h| - 1];
    if i < |Lines(front)| {
      FrontierSettles(front, i);
    } else {
      FrontierIsWithin(front);
      if Released(front, i) {
        ReleasedIsPast(front, i);
      }
    }
  }

  lemma {:induction false} FrontierIsWithin(h: seq<Input>)
    ensures Frontier(h) <= |Lines(h)|
  {
    if h != [] {
      FrontierIsWithin(h[..|h| - 1]);
    }
  }

  // ---------- one more input ----------

  lemma SettledEndStays(h: seq<Input>, x: Input, i: nat)
    requires i < Frontier(h) && i < |Lines(h)|
    ensures |Lines(h + [x])| >= |Lines(h)|
    ensures var end := Least(i + 51, Horizon(h, i));
            i + 1 <= end <= |Lines(h)| && end == Least(i + 51, Horizon(h + [x], i))
  {
    var h' := h + [x];
    assert h'[..|h'| - 1] == h;
    FrontierSettles(h, i);
    HorizonIsWithin(h, i);
    HorizonIsWithin(h', i);
    if !Released(h, i) {
      NotYetReleased(h, i);
    }
  }

  lemma SettledStays(m: Matcher, h: seq<Input>, x: Input, i: nat)
    requires i < Frontier(h) && i < |Lines(h)| && m(Lines(h)[i]).Some?
    ensures |Lines(h + [x])| >= |Lines(h)| && Lines(h + [x])[i] == Lines(h)[i]
    ensures EventAt(m, h + [x], i) == EventAt(m, h, i)
  {
    EventKeepsItsPlace(m, h, x, i);
    SettledEndStays(h, x, i);
    LinesStay(h, x);
    var end := Least(i + 51, Horizon(h, i));
    assert Lines(h + [x])[i + 1..end] == Lines(h)[i + 1..end];
  }

  /** Only an overflow loses errors, and never a settled one. */
  lemma LostAfter(m: Matcher, h: seq<Input>, x: Input, i: nat)
    requires i < |Lines(h)|
    ensures Lost(m, h + [x], i) <==> Lost(m, h, i) || (x.Trim? && Frontier(h) <= i && Rematched(m, Lines(h), i))
  {
    assert (h + [x])[..|h|] == h;
  }

  lemma {:induction false} LostIsPast(m: Matcher, h: seq<Input>, i: nat)
    requires Lost(m, h, i)
    ensures i < |Lines(h)| && Rematched(m, Lines(h), i)
  {
    var front := h[..|h| - 1];
    if Lost(m, front, i) {
      LostIsPast(m, front, i);
    }
    var j :| i < j < |Lines(front)| && m(Lines(front)[j]).Some?;
    assert m(Lines(h)[j]).Some?;
  }

  /** A line not yet settled has every later line in its window, and fewer than 50 of them. */
  lemma WaitingWindow(h: seq<Input>, i: nat)
    requires Frontier(h) <= i < |Lines(h)|
    ensures !Released(h, i) && Horizon(h, i) == |Lines(h)| < i + 51
  {
    FrontierSettles(h, i);
    NotYetReleased(h, i);
  }

  lemma WaitingHorizonMoves(h: seq<Input>, x: Input, i: nat)
    requires Frontier(h) <= i < |Lines(h)|
    ensures |Lines(h + [x])| >= |Lines(h)|
    ensures Horizon(h + [x], i) == |Lines(h + [x])|
  {
    assert (h + [x])[..|h|] == h;
    WaitingWindow(h, i);
  }

  lemma TrailingSoFar(m: Matcher, h: seq<Input>, i: nat)
    requires i < |Lines(h)| && m(Lines(h)[i]).Some?
    requires Horizon(h, i) == |Lines(h)| <= i + 51
    ensures EventAt(m, h, i).after == Lines(h)[i + 1..]
  {
    assert Lines(h)[i + 1..|Lines(h)|] == Lines(h)[i + 1..];
  }

  lemma EventKeepsItsPlace(m: Matcher, h: seq<Input>, x: Input, i: nat)
    requires i < |Lines(h)| && m(Lines(h)[i]).Some?
    ensures |Lines(h + [x])| >= |Lines(h)| && Lines(h + [x])[i] == Lines(h)[i]
    ensures EventAt(m, h + [x], i) == EventAt(m, h, i).(after := EventAt(m, h + [x], i).after)
  {
    LinesStay(h, x);
    assert (h + [x])[..|h|] == h;
    assert Starts(h + [x])[i] == Starts(h)[i];
    LeadingStays(Lines(h), Lines(h + [x]), Starts(h)[i], i);
  }

  lemma LeadingStays(lines: seq<string>, lines': seq<string>, start: nat, i: nat)
    requires start <= i <= |lines| && lines <= lines'
    ensures Leading(lines', start, i) == Leading(lines, start, i)
  {
  }

  /** An event still waiting takes the next line, and nothing from a quiet poll. */
  lemma WaitingEventGrows(m: Matcher, h: seq<Input>, x: Input, i: nat)
    requires Frontier(h) <= i < |Lines(h)| && m(Lines(h)[i]).Some?
    ensures |Lines(h + [x])| >= |Lines(h)| && Lines(h + [x])[i] == Lines(h)[i]
    ensures EventAt(m, h + [x], i) == if x.Line? then Fed(EventAt(m, h, i), x.text) else EventAt(m, h, i)
    ensures |EventAt(m, h, i).after| == |Lines(h)| - i - 1 < 50
  {
    EventKeepsItsPlace(m, h, x, i);
    WaitingWindow(h, i);
    WaitingHorizonMoves(h, x, i);
    TrailingSoFar(m, h, i);
    LinesStay(h, x);
    TrailingSoFar(m, h + [x], i);
  }

  lemma NotYetReleased(h: seq<Input>, i: nat)
    requires i < |Lines(h)| && !Released(h, i)
    ensures Horizon(h, i) == |Lines(h)|
  {
  }

  lemma LinesStay(h: seq<Input>, x: Input)
    ensures Lines(h + [x]) == Lines(h) + if x.Line? then [x.text] else []
  {
    assert (h + [x])[..|h|] == h;
  }

  /** Once the next line is in, an event is complete exactly when it is before the new frontier. */
  lemma CompleteExactlyWhen(m: Matcher, h: seq<Input>, line: string, i: nat)
    requires Frontier(h) <= i < |Lines(h)| && m(Lines(h)[i]).Some?
    ensures var h' := h + [Line(line)];
            && Lines(h') == Lines(h) + [line]
            && (|EventAt(m, h', i).after| >= 50 <==> i < Frontier(h'))
  {
    LinesStay(h, Line(line));
    WaitingEventGrows(m, h, Line(line), i);
    assert (h + [Line(line)])[..|h|] == h;
  }

  lemma FrontierAdvances(h: seq<Input>, x: Input)
    ensures Frontier(h) <= Frontier(h + [x])
  {
    assert (h + [x])[..|h|] == h;
    FrontierIsWithin(h);
  }

  // ---------- choosing events from the lines ----------

  lemma {:induction false} ChosenAgree(a: seq<Option<ErrorEvent>>, b: seq<Option<ErrorEvent>>, lo: nat, hi: nat)
    requires hi <= |a| && hi <= |b| && forall i | lo <= i < hi :: a[i] == b[i]
    ensures Chosen(a, lo, hi) == Chosen(b, lo, hi)
  {
    if lo < hi {
      ChosenAgree(a, b, lo, hi - 1);
    }
  }

  predicate FedFrom(a: Option<ErrorEvent>, b: Option<ErrorEvent>, line: string) {
    a.Some? == b.Some? && (a.Some? ==> b.value == Fed(a.value, line))
  }

  lemma FedAllAppends(pending: seq<ErrorEvent>, e: ErrorEvent, line: string)
    ensures FedAll(pending + [e], line) == FedAll(pending, line) + [Fed(e, line)]
  {
    assert (pending + [e])[..|pending|] == pending;
  }

  lemma {:induction false} ChosenAreFed(a: seq<Option<ErrorEvent>>, b: seq<Option<ErrorEvent>>, lo: nat, hi: nat, line: string)
    requires hi <= |a| && hi <= |b| && forall i | lo <= i < hi :: FedFrom(a[i], b[i], line)
    ensures Chosen(b, lo, hi) == FedAll(Chosen(a, lo, hi), line)
  {
    if lo < hi {
      ChosenAreFed(a, b, lo, hi - 1, line);
      assert FedFrom(a[hi - 1], b[hi - 1], line);
      if a[hi - 1].Some? {
        FedAllAppends(Chosen(a, lo, hi - 1), a[hi - 1].value, line);
      }
    }
  }

  lemma ReadyAppends(pending: seq<ErrorEvent>, e: ErrorEvent)
    ensures |e.after| >= 50 ==> Ready(pending + [e], false) == Ready(pending, false) + [e]
    ensures |e.after| < 50 ==> Ready(pending + [e], false) == Ready(pending, false)
  {
    assert (pending + [e])[..|pending|] == pending;
  }

  lemma WaitingAppends(pending: seq<ErrorEvent>, e: ErrorEvent)
    ensures |e.after| >= 50 ==> Waiting(pending + [e], false) == Waiting(pending, false)
    ensures |e.after| < 50 ==> Waiting(pending + [e], false) == Waiting(pending, false) + [e]
  {
    assert (pending + [e])[..|pending|] == pending;
  }

  predicate CompleteBefore(a: seq<Option<ErrorEvent>>, lo: nat, f: nat, hi: nat)
    requires hi <= |a|
  {
    forall i: nat | lo <= i < hi && a[i].Some? :: |a[i].value.after| >= 50 <==> i < f
  }

  lemma {:induction false} CompleteOnesAreReady(a: seq<Option<ErrorEvent>>, lo: nat, f: nat, hi: nat)
    requires lo <= f && hi <= |a| && CompleteBefore(a, lo, f, hi)
    ensures Ready(Chosen(a, lo, hi), false) == Chosen(a, lo, Least(hi, f))
  {
    if hi > lo {
      CompleteOnesAreReady(a, lo, f, hi - 1);
      if a[hi - 1].Some? {
        ReadyAppends(Chosen(a, lo, hi - 1), a[hi - 1].value);
      }
    }
  }

  lemma {:induction false} OtherOnesWait(a: seq<Option<ErrorEvent>>, lo: nat, f: nat, hi: nat)
    requires lo <= f && hi <= |a| && CompleteBefore(a, lo, f, hi)
    ensures Waiting(Chosen(a, lo, hi), false) == Chosen(a, f, hi)
  {
    if hi > lo {
      OtherOnesWait(a, lo, f, hi - 1);
      if a[hi - 1].Some? {
        WaitingAppends(Chosen(a, lo, hi - 1), a[hi - 1].value);
      }
    }
  }

  /** The events from `lo` on divide at `f` into those complete and those still waiting. */
  predicate Divided(a: seq<Option<ErrorEvent>>, lo: nat, f: nat, hi: nat) {
    && hi <= |a|
    && Ready(Chosen(a, lo, hi), false) == Chosen(a, lo, Least(hi, f))
    && Waiting(Chosen(a, lo, hi), false) == Chosen(a, f, hi)
  }

  lemma {:induction false} ForceEmptiesPending(pending: seq<ErrorEvent>)
    ensures Ready(pending, true) == pending && Waiting(pending, true) == []
  {
    if pending != [] {
      ForceEmptiesPending(pending[..|pending| - 1]);
    }
  }

  lemma {:induction false} ChosenSplits(a: seq<Option<ErrorEvent>>, mid: nat, hi: nat)
    requires mid <= hi <= |a|
    ensures Chosen(a, 0, mid) + Chosen(a, mid, hi) == Chosen(a, 0, hi)
  {
    if hi > mid {
      ChosenSplits(a, mid, hi - 1);
    }
  }

  // ---------- one input ----------

  lemma SettledEventsStay(m: Matcher, h: seq<Input>, x: Input)
    requires Frontier(h) <= |Lines(h)|
    ensures |Lines(h + [x])| >= |Lines(h)| && Expected(m, h + [x], 0, Frontier(h)) == Expected(m, h, 0, Frontier(h))
  {
    LinesStay(h, x);
    forall i | 0 <= i < Frontier(h) ensures Slots(m, h)[i] == Slots(m, h + [x])[i] {
      LostAfter(m, h, x, i);
      if m(Lines(h)[i]).Some? {
        SettledStays(m, h, x, i);
      }
    }
    ChosenAgree(Slots(m, h), Slots(m, h + [x]), 0, Frontier(h));
  }

  lemma WaitingEventsFeed(m: Matcher, h: seq<Input>, line: string)
    ensures |Lines(h + [Line(line)])| >= |Lines(h)|
    ensures Expected(m, h + [Line(line)], Frontier(h), |Lines(h)|) == FedAll(Expected(m, h, Frontier(h), |Lines(h)|), line)
  {
    LinesStay(h, Line(line));
    var a, b := Slots(m, h), Slots(m, h + [Line(line)]);
    forall i | Frontier(h) <= i < |Lines(h)| ensures FedFrom(a[i], b[i], line) {
      LostAfter(m, h, Line(line), i);
      if m(Lines(h)[i]).Some? {
        WaitingEventGrows(m, h, Line(line), i);
      }
    }
    ChosenAreFed(a, b, Frontier(h), |Lines(h)|, line);
  }

  lemma WaitingEventsWait(m: Matcher, h: seq<Input>)
    ensures |Lines(h + [Quiet])| >= |Lines(h)|
    ensures Expected(m, h + [Quiet], Frontier(h), |Lines(h)|) == Expected(m, h, Frontier(h), |Lines(h)|)
  {
    LinesStay(h, Quiet);
    forall i | Frontier(h) <= i < |Lines(h)| ensures Slots(m, h)[i] == Slots(m, h + [Quiet])[i] {
      LostAfter(m, h, Quiet, i);
      if m(Lines(h)[i]).Some? {
        WaitingEventGrows(m, h, Quiet, i);
      }
    }
    ChosenAgree(Slots(m, h), Slots(m, h + [Quiet]), Frontier(h), |Lines(h)|);
  }

  lemma FrontierDividesFed(m: Matcher, h: seq<Input>, line: string)
    ensures Divided(Slots(m, h + [Line(line)]), Frontier(h), Frontier(h + [Line(line)]), |Lines(h)|)
  {
    var h', lo, n := h + [Line(line)], Frontier(h), |Lines(h)|;
    LinesStay(h, Line(line));
    FrontierAdvances(h, Line(line));
    forall i: nat | lo <= i < n && Slots(m, h')[i].Some?
      ensures |Slots(m, h')[i].value.after| >= 50 <==> i < Frontier(h')
    {
      CompleteExactlyWhen(m, h, line, i);
    }
    CompleteOnesAreReady(Slots(m, h'), lo, Frontier(h'), n);
    OtherOnesWait(Slots(m, h'), lo, Frontier(h'), n);
  }

  /** The streaming state, in terms of the finished log. */
  predicate Exact(m: Matcher, h: seq<Input>, s: State) {
    && s.count == |Lines(h)| && s.before == Last(Lines(h)[Cleared(h)..])
    && Frontier(h) <= |Lines(h)|
    && s.emitted == Expected(m, h, 0, Frontier(h))
    && s.pending == Expected(m, h, Frontier(h), |Lines(h)|)
  }

  lemma QuietKeepsExact(m: Matcher, h: seq<Input>, s: State)
    requires Exact(m, h, s)
    ensures Exact(m, h + [Quiet], Next(m, s, Quiet))
  {
    AfterQuiet(h);
    QuietEmitsAll(m, h);
    ForceEmptiesPending(s.pending);
  }

  lemma AfterQuiet(h: seq<Input>)
    ensures Lines(h + [Quiet]) == Lines(h) && Cleared(h + [Quiet]) == Cleared(h) && Frontier(h + [Quiet]) == |Lines(h)|
  {
    assert (h + [Quiet])[..|h|] == h;
  }

  lemma QuietEmitsAll(m: Matcher, h: seq<Input>)
    requires Frontier(h) <= |Lines(h)|
    ensures var n := |Lines(h)|;
            && |Lines(h + [Quiet])| == n
            && Expected(m, h + [Quiet], 0, n) == Expected(m, h, 0, Frontier(h)) + Expected(m, h, Frontier(h), n)
            && Expected(m, h + [Quiet], n, n) == []
  {
    AfterQuiet(h);
    SettledEventsStay(m, h, Quiet);
    WaitingEventsWait(m, h);
    ChosenSplits(Slots(m, h + [Quiet]), Frontier(h), |Lines(h)|);
  }

  lemma LineKeepsExact(m: Matcher, h: seq<Input>, s: State, line: string)
    requires Exact(m, h, s)
    ensures Exact(m, h + [Line(line)], Next(m, s, Line(line)))
  {
    LineEmitsSettled(m, h, s, line);
    LineLeavesPending(m, h, s, line);
    LineSlidesContext(m, h, s, line);
  }

  lemma LineSlidesContext(m: Matcher, h: seq<Input>, s: State, line: string)
    requires s.count == |Lines(h)| && s.before == Last(Lines(h)[Cleared(h)..])
    ensures var h', s' := h + [Line(line)], Next(m, s, Line(line));
            s'.count == |Lines(h')| && s'.before == Last(Lines(h')[Cleared(h')..])
  {
    LinesStay(h, Line(line));
    assert (h + [Line(line)])[..|h|] == h;
    assert Lines(h + [Line(line)])[Cleared(h)..] == Lines(h)[Cleared(h)..] + [line];
    SlidingTwice(Lines(h)[Cleared(h)..], line);
  }

  lemma SlidingTwice(lines: seq<string>, line: string)
    ensures Last(Last(lines) + [line]) == Last(lines + [line])
  {
  }

  lemma LineEmitsSettled(m: Matcher, h: seq<Input>, s: State, line: string)
    requires Exact(m, h, s)
    ensures var h' := h + [Line(line)];
            && Frontier(h') <= |Lines(h')|
            && Next(m, s, Line(line)).emitted == Expected(m, h', 0, Frontier(h'))
  {
    var h', n := h + [Line(line)], |Lines(h)|;
    SettledEventsStay(m, h, Line(line));
    WaitingEventsFeed(m, h, line);
    FrontierDividesFed(m, h, line);
    NewLineWaits(h, line);
    FrontierAdvances(h, Line(line));
    ChosenSplits(Slots(m, h'), Frontier(h), Frontier(h'));
  }

  lemma LineLeavesPending(m: Matcher, h: seq<Input>, s: State, line: string)
    requires Exact(m, h, s)
    ensures var h' := h + [Line(line)];
            Next(m, s, Line(line)).pending == Expected(m, h', Frontier(h'), |Lines(h')|)
  {
    LineKeepsUnfinished(m, h, s, line);
    NewLineIsNoticed(m, h, line);
  }

  lemma LineKeepsUnfinished(m: Matcher, h: seq<Input>, s: State, line: string)
    requires Exact(m, h, s)
    ensures var h' := h + [Line(line)];
            |Lines(h)| <= |Lines(h')| && Waiting(FedAll(s.pending, line), false) == Expected(m, h', Frontier(h'), |Lines(h)|)
  {
    WaitingEventsFeed(m, h, line);
    FrontierDividesFed(m, h, line);
  }

  lemma NewLineWaits(h: seq<Input>, line: string)
    ensures Frontier(h + [Line(line)]) <= |Lines(h)|
  {
    assert (h + [Line(line)])[..|h|] == h;
    FrontierIsWithin(h);
  }

  lemma NewLineIsNoticed(m: Matcher, h: seq<Input>, line: string)
    ensures var h', n := h + [Line(line)], |Lines(h)|;
            && |Lines(h')| == n + 1
            && Expected(m, h', Frontier(h'), n + 1)
               == Expected(m, h', Frontier(h'), n) + Noticed(m, n + 1, line, Last(Lines(h)[Cleared(h)..]))
  {
    var h', n := h + [Line(line)], |Lines(h)|;
    LinesStay(h, Line(line));
    NewLineWaits(h, line);
    NewSlot(m, h, line);
    ExpectedGrows(m, h', Frontier(h'), n, Noticed(m, n + 1, line, Last(Lines(h)[Cleared(h)..])));
  }

  function Found(slot: Option<ErrorEvent>): seq<ErrorEvent> {
    if slot.Some? then [slot.value] else []
  }

  lemma ExpectedGrows(m: Matcher, h: seq<Input>, lo: nat, n: nat, found: seq<ErrorEvent>)
    requires lo <= n < |Lines(h)| && Found(Slot(m, h, n)) == found
    ensures Expected(m, h, lo, n + 1) == Expected(m, h, lo, n) + found
  {
  }

  lemma NewLineHasNoContextAfter(h: seq<Input>, line: string)
    ensures var h', n := h + [Line(line)], |Lines(h)|;
            |Lines(h')| == n + 1 && Horizon(h', n) == n + 1
  {
    var h', n := h + [Line(line)], |Lines(h)|;
    LinesStay(h, Line(line));
    assert h'[..|h'| - 1] == h;
    if Released(h, n) {
      ReleasedIsPast(h, n);
    }
  }

  lemma NewLineStartsAtOverflow(h: seq<Input>, line: string)
    ensures var h', n := h + [Line(line)], |Lines(h)|;
            && |Lines(h')| == n + 1 && Lines(h')[n] == line
            && Starts(h')[n] == Cleared(h) && Lines(h')[Cleared(h)..n] == Lines(h)[Cleared(h)..]
  {
    var h', n := h + [Line(line)], |Lines(h)|;
    LinesStay(h, Line(line));
    assert h'[..|h'| - 1] == h;
    assert Lines(h')[Cleared(h)..n] == Lines(h)[Cleared(h)..];
  }

  lemma NewLineIsNotLost(m: Matcher, h: seq<Input>, line: string)
    ensures !Lost(m, h + [Line(line)], |Lines(h)|)
  {
    assert (h + [Line(line)])[..|h|] == h;
    if Lost(m, h + [Line(line)], |Lines(h)|) {
      LostIsPast(m, h, |Lines(h)|);
    }
  }

  lemma NewSlot(m: Matcher, h: seq<Input>, line: string)
    ensures var h', n := h + [Line(line)], |Lines(h)|;
            && |Lines(h')| == n + 1
            && Found(Slot(m, h', n)) == Noticed(m, n + 1, line, Last(Lines(h)[Cleared(h)..]))
  {
    LinesStay(h, Line(line));
    NewLineIsNotLost(m, h, line);
    if m(line).Some? {
      NewEvent(m, h, line);
    }
  }

  lemma NewEvent(m: Matcher, h: seq<Input>, line: string)
    requires m(line).Some?
    ensures var h', n := h + [Line(line)], |Lines(h)|;
            && |Lines(h')| == n + 1 && Lines(h')[n] == line
            && EventAt(m, h', n) == ErrorEvent(n + 1, line, m(line).value, Last(Lines(h)[Cleared(h)..]), [])
  {
    NewLineHasNoContextAfter(h, line);
    NewLineStartsAtOverflow(h, line);
    var h', n := h + [Line(line)], |Lines(h)|;
    var e := EventAt(m, h', n);
    LastIsLeading(Lines(h'), Cleared(h), n);
    assert e.before == Last(Lines(h)[Cleared(h)..]);
    assert e.after == Lines(h')[n + 1..n + 1] == [];
  }

  // ---------- overflow ----------

  /** A slot is emptied when a later one is taken. */
  predicate EmptiedFrom(a: seq<Option<ErrorEvent>>, b: seq<Option<ErrorEvent>>, i: nat, hi: nat)
    requires i < hi <= |a| && hi <= |b|
  {
    b[i] == if exists j | i < j < hi :: a[j].Some? then None else a[i]
  }

  lemma {:induction false} NoneChosen(b: seq<Option<ErrorEvent>>, lo: nat, hi: nat)
    requires hi <= |b| && forall i | lo <= i < hi :: b[i].None?
    ensures Chosen(b, lo, hi) == []
  {
    if lo < hi {
      NoneChosen(b, lo, hi - 1);
    }
  }

  lemma {:induction false} LastChosen(a: seq<Option<ErrorEvent>>, b: seq<Option<ErrorEvent>>, lo: nat, hi: nat)
    requires hi <= |a| && hi <= |b| && forall i | lo <= i < hi :: EmptiedFrom(a, b, i, hi)
    ensures Chosen(b, lo, hi) == Kept(Chosen(a, lo, hi))
  {
    if lo < hi {
      assert EmptiedFrom(a, b, hi - 1, hi);
      if a[hi - 1].Some? {
        forall i | lo <= i < hi - 1 ensures b[i].None? {
          assert EmptiedFrom(a, b, i, hi);
        }
        NoneChosen(b, lo, hi - 1);
      } else {
        var k := hi - 1;
        forall i | lo <= i < k ensures EmptiedFrom(a, b, i, k) {
          assert EmptiedFrom(a, b, i, hi);
        }
        LastChosen(a, b, lo, k);
      }
    }
  }

  lemma LastMatch(m: Matcher, lines: seq<string>, i: nat) returns (j: nat)
    requires Rematched(m, lines, i)
    ensures i < j < |lines| && m(lines[j]).Some? && !Rematched(m, lines, j)
  {
    j := |lines| - 1;
    while m(lines[j]).None?
      invariant i < j < |lines| && forall k | j < k < |lines| :: m(lines[k]).None?
      decreases j
    {
      var k :| i < k < |lines| && m(lines[k]).Some?;
      assert k < j;
      j := j - 1;
    }
  }

  /** Of the lines that match after one, the last is never dropped. */
  lemma LaterSlots(m: Matcher, h: seq<Input>, i: nat)
    requires i < |Lines(h)|
    ensures Rematched(m, Lines(h), i) <==> exists j | i < j < |Lines(h)| :: Slots(m, h)[j].Some?
  {
    if Rematched(m, Lines(h), i) {
      var j := LastMatch(m, Lines(h), i);
      if Lost(m, h, j) {
        LostIsPast(m, h, j);
      }
      assert Slots(m, h)[j].Some?;
    }
    if exists j | i < j < |Lines(h)| :: Slots(m, h)[j].Some? {
      var j :| i < j < |Lines(h)| && Slots(m, h)[j].Some?;
      assert m(Lines(h)[j]).Some?;
    }
  }

  lemma TrimKeepsTheLast(m: Matcher, h: seq<Input>)
    ensures |Lines(h + [Trim])| >= |Lines(h)|
    ensures Expected(m, h + [Trim], Frontier(h), |Lines(h)|) == Kept(Expected(m, h, Frontier(h), |Lines(h)|))
  {
    LinesStay(h, Trim);
    var a, b, n := Slots(m, h), Slots(m, h + [Trim]), |Lines(h)|;
    forall i | Frontier(h) <= i < n ensures EmptiedFrom(a, b, i, n) {
      LostAfter(m, h, Trim, i);
      LaterSlots(m, h, i);
      if m(Lines(h)[i]).Some? {
        WaitingEventGrows(m, h, Trim, i);
      }
    }
    LastChosen(a, b, Frontier(h), n);
  }

  lemma TrimKeepsExact(m: Matcher, h: seq<Input>, s: State)
    requires Exact(m, h, s)
    ensures Exact(m, h + [Trim], Next(m, s, Trim))
  {
    assert (h + [Trim])[..|h|] == h;
    LinesStay(h, Trim);
    SettledEventsStay(m, h, Trim);
    TrimKeepsTheLast(m, h);
  }

  /**
    Every matching line gives exactly one event, in line order, unless an overflow dropped it: with the
    50 lines before it since the last overflow, and the lines after it up to the 50th or the first
    quiet poll. It is handed on once those are in, and waits until then.
   */
  lemma {:induction false} WindowsAreExact(m: Matcher, h: seq<Input>)
    ensures Exact(m, h, Run(m, h))
    ensures Run(m, h).emitted + Run(m, h).pending == Expected(m, h, 0, |Lines(h)|)
  {
    if h == [] {
      assert Exact(m, h, Run(m, h));
    } else {
      var front := h[..|h| - 1];
      WindowsAreExact(m, front);
      assert front + [h[|h| - 1]] == h;
      match h[|h| - 1] {
        case Quiet => QuietKeepsExact(m, front, Run(m, front));
        case Trim => TrimKeepsExact(m, front, Run(m, front));
        case Line(line) => LineKeepsExact(m, front, Run(m, front), line);
      }
    }
    ChosenSplits(Slots(m, h), Frontier(h), |Lines(h)|);
  }

  // ---------- what that means for one line ----------

  lemma {:induction false} ExpectedHolds(m: Matcher, h: seq<Input>, lo: nat, hi: nat, e: ErrorEvent)
    requires hi <= |Lines(h)|
    ensures e in Expected(m, h, lo, hi)
            <==> lo < e.number <= hi && m(Lines(h)[e.number - 1]).Some? && !Lost(m, h, e.number - 1)
                 && e == EventAt(m, h, e.number - 1)
    ensures lo <= hi ==> |Expected(m, h, lo, hi)| <= hi - lo
  {
    if lo < hi {
      ExpectedHolds(m, h, lo, hi - 1, e);
    }
  }

  predicate QuietAfter(h: seq<Input>, i: nat, k: nat) {
    k < |h| && h[k].Quiet? && i < |Lines(h[..k])|
  }

  /** The first quiet poll after line `i` is where its trailing context stops. */
  lemma {:induction false} HorizonIsTheFirstQuiet(h: seq<Input>, i: nat) returns (k: nat)
    requires Released(h, i)
    ensures QuietAfter(h, i, k) && Horizon(h, i) == |Lines(h[..k])|
    ensures forall j: nat :: QuietAfter(h, i, j) ==> k <= j
  {
    var front := h[..|h| - 1];
    if Released(front, i) {
      k := HorizonIsTheFirstQuiet(front, i);
      assert front[..k] == h[..k];
      forall j: nat | QuietAfter(h, i, j) && j < |front| ensures k <= j {
        assert front[..j] == h[..j];
        assert QuietAfter(front, i, j);
      }
    } else {
      k := |h| - 1;
      NoQuietWithoutRelease(front, i);
      forall j: nat | QuietAfter(h, i, j) ensures k <= j {
        if j < |front| {
          assert front[..j] == h[..j];
          assert QuietAfter(front, i, j);
        }
      }
    }
  }

  lemma {:induction false} NoQuietWithoutRelease(h: seq<Input>, i: nat)
    requires !Released(h, i)
    ensures forall j: nat :: !QuietAfter(h, i, j)
  {
    if h != [] {
      var front := h[..|h| - 1];
      NoQuietWithoutRelease(front, i);
      forall j: nat | j < |front| ensures !QuietAfter(h, i, j) {
        assert front[..j] == h[..j] && front[j] == h[j];
        assert !QuietAfter(front, i, j);
      }
    }
  }

  lemma EmittedIn(m: Matcher, h: seq<Input>, lo: nat, hi: nat, i: nat)
    requires i < |Lines(h)| && m(Lines(h)[i]).Some? && hi <= |Lines(h)|
    ensures EventAt(m, h, i) in Expected(m, h, lo, hi) <==> lo <= i < hi && !Lost(m, h, i)
  {
    ExpectedHolds(m, h, lo, hi, EventAt(m, h, i));
  }

  /** A matching line's event, unless dropped, has been handed on exactly when 50 lines or a quiet poll followed it. */
  lemma EmittedExactlyWhen(m: Matcher, h: seq<Input>, i: nat)
    requires i < |Lines(h)| && m(Lines(h)[i]).Some?
    ensures var settled := Released(h, i) || i + 50 < |Lines(h)|;
            && (EventAt(m, h, i) in Run(m, h).emitted <==> settled && !Lost(m, h, i))
            && (EventAt(m, h, i) in Run(m, h).pending <==> !settled && !Lost(m, h, i))
  {
    WindowsAreExact(m, h);
    FrontierSettles(h, i);
    EmittedIn(m, h, 0, Frontier(h), i);
    EmittedIn(m, h, Frontier(h), |Lines(h)|, i);
  }

  /** At step `k` the buffer overflows while line `i` waits, and a later match waits with it. */
  predicate DroppedAt(m: Matcher, h: seq<Input>, i: nat, k: nat) {
    && k < |h| && h[k].Trim? && i < |Lines(h[..k])| && Rematched(m, Lines(h[..k]), i)
    && !Released(h[..k], i) && |Lines(h[..k])| <= i + 50
  }

  /** An error is lost exactly by an overflow that finds it waiting and not the last one waiting. */
  lemma {:induction false} LostExactlyWhen(m: Matcher, h: seq<Input>, i: nat)
    ensures Lost(m, h, i) <==> exists k: nat :: DroppedAt(m, h, i, k)
  {
    if h != [] {
      var front, n := h[..|h| - 1], |h| - 1;
      LostExactlyWhen(m, front, i);
      if i < |Lines(front)| {
        FrontierSettles(front, i);
      }
      assert h[n].Trim? && Frontier(front) <= i < |Lines(front)| && Rematched(m, Lines(front), i) <==> DroppedAt(m, h, i, n);
      forall k: nat | k < n ensures DroppedAt(m, front, i, k) <==> DroppedAt(m, h, i, k) {
        assert front[..k] == h[..k];
      }
    }
  }

  predicate NoOverflow(h: seq<Input>) {
    forall k | 0 <= k < |h| :: !h[k].Trim?
  }

  /** Without overflow nothing is dropped, and leading contexts are the full 50 lines. */
  lemma {:induction false} NothingLostWithoutOverflow(m: Matcher, h: seq<Input>, i: nat)
    requires NoOverflow(h)
    ensures !Lost(m, h, i) && Cleared(h) == 0 && forall k | 0 <= k < |Starts(h)| :: Starts(h)[k] == 0
  {
    if h != [] {
      NothingLostWithoutOverflow(m, h[..|h| - 1], i);
    }
  }

  /** The event of line `i` ends at the 50th line, or else at the first quiet poll. */
  lemma SettledContextIsFinal(m: Matcher, h: seq<Input>, i: nat)
    requires i < Frontier(h) && i < |Lines(h)| && m(Lines(h)[i]).Some?
    ensures var after := EventAt(m, h, i).after;
            && after <= Lines(h)[i + 1..]
            && (|after| == 50 || EndsAtQuiet(h, i, after))
  {
    FrontierSettles(h, i);
    HorizonIsWithin(h, i);
    var after := EventAt(m, h, i).after;
    if |after| != 50 {
      var k := HorizonIsTheFirstQuiet(h, i);
      LinesGrow(h, k);
      assert after == Lines(h[..k])[i + 1..];
    }
  }

  predicate EndsAtQuiet(h: seq<Input>, i: nat, after: seq<string>) {
    exists k: nat | k < |h| :: QuietAfter(h, i, k) && after == Lines(h[..k])[i + 1..]
  }

  /** The event's line, and its context so far, by their place in the log. */
  predicate PlacedIn(h: seq<Input>, e: ErrorEvent) {
    && 0 < e.number <= |Lines(h)| && e.line == Lines(h)[e.number - 1]
    && e.before == Leading(Lines(h), Starts(h)[e.number - 1], e.number - 1)
    && e.after <= Lines(h)[e.number..]
  }

  /** It has 50 lines after it, or ends at a quiet poll. */
  predicate FinishedIn(h: seq<Input>, e: ErrorEvent) {
    PlacedIn(h, e) && (|e.after| == 50 || EndsAtQuiet(h, e.number - 1, e.after))
  }

  lemma EventIsFinished(m: Matcher, h: seq<Input>, i: nat)
    requires i < |Lines(h)| && m(Lines(h)[i]).Some? && i < Frontier(h)
    ensures FinishedIn(h, EventAt(m, h, i))
  {
    SettledContextIsFinal(m, h, i);
  }

  lemma EmittedComesFrom(m: Matcher, h: seq<Input>, e: ErrorEvent) returns (i: nat)
    requires e in Run(m, h).emitted
    ensures i < |Lines(h)| && i < Frontier(h) && m(Lines(h)[i]).Some? && e == EventAt(m, h, i)
  {
    WindowsAreExact(m, h);
    ExpectedHolds(m, h, 0, Frontier(h), e);
    i := e.number - 1;
  }

  /** An event handed on has all its leading context since the last overflow, and trailing context cut short only by a quiet poll. */
  lemma EmittedContextIsFinal(m: Matcher, h: seq<Input>, e: ErrorEvent)
    requires e in Run(m, h).emitted
    ensures FinishedIn(h, e)
  {
    var i := EmittedComesFrom(m, h, e);
    EventIsFinished(m, h, i);
  }
}
