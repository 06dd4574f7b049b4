/** One watched file: what is read from it goes straight into its context windows. */
module LogMonitoring {
  import opened Basics
  import opened LogTail
  import opened ContextWindows
  import opened ContextRuns

  class MonitoredFile {
    const tail: TailedFile
    const windows: WindowedFile

    ghost predicate Valid()
      reads this, tail, windows
    {
      tail.Valid() && windows.Valid()
    }

    constructor (matcher: Matcher, offset: nat, inode: Option<nat>)
      ensures Valid() && fresh(tail) && fresh(windows) && windows.matcher == matcher
      ensures tail.reader == Started(offset, inode) && windows.history == [] && windows.reported == []
    {
      tail := new TailedFile(offset, inode);
      windows := new WindowedFile(matcher);
    }

    /** `_process_file`, from the disk to the events handed on; `overflows` tells which lines overflow the buffer. */
    method Poll(look: Look, overflows: nat -> bool) returns (emitted: seq<ErrorEvent>)
      requires Valid()
      modifies tail, windows
      ensures Valid() && tail.reader == Visit(old(tail.reader), look)
      ensures windows.history == Polled(old(windows.history), NewLines(old(tail.reader), look), overflows)
      ensures windows.reported == old(windows.reported) + emitted
    {
      var lines := tail.ReadNewLines(look);
      NewLinesAreReturned(old(tail.reader), look);
      SameEnd(if Resets(old(tail.reader), look) then [] else old(tail.reader.tail.returned), lines, NewLines(old(tail.reader), look));
      emitted := windows.ProcessFile(lines, overflows);
    }
  }

  /** The lines one look returns. */
  function NewLines(r: Reader, look: Look): seq<string> {
    if !look.Readable? then []
    else if Resets(r, look) then ReadLines("", look.f.content)
    else ReadLines(r.tail.partial, look.f.content[r.offset..])
  }

  lemma NewLinesAreReturned(r: Reader, look: Look)
    ensures Visit(r, look).tail.returned == (if Resets(r, look) then [] else r.tail.returned) + NewLines(r, look)
  {
  }

  lemma SameEnd(start: seq<string>, a: seq<string>, b: seq<string>)
    requires start + a == start + b
    ensures a == b
  {
    assert a == (start + a)[|start|..] && b == (start + b)[|start|..];
  }

  // ---------- line numbers ----------

  /** Which lines of which look overflow the buffer. */
  type Overflows = (nat, nat) -> bool

  /** What happens to the windows while a file is looked at again and again. */
  function InputsOf(r: Reader, looks: seq<Look>, overflows: Overflows): seq<Input> {
    if looks == [] then []
    else
      var n := |looks| - 1;
      Polled(InputsOf(r, looks[..n], overflows), NewLines(VisitAll(r, looks[..n]), looks[n]), (i: nat) => overflows(n, i))
  }

  /** The lines read before the file was last new: the windows do not forget them. */
  function CarriedOver(offset: nat, inode: Option<nat>, looks: seq<Look>): seq<string> {
    if looks == [] then []
    else
      var front, look := looks[..|looks| - 1], looks[|looks| - 1];
      var before := CarriedOver(offset, inode, front);
      if !look.Missing? && IsNew(SightOf(offset, inode, front), look.f)
      then before + ReadAll(ChunksSince(offset, inode, front)).returned
      else before
  }

  lemma {:induction false} LinesOfMore(h: seq<Input>, lines: seq<string>, overflows: nat -> bool)
    ensures Lines(AllTaken(h, lines, overflows)) == Lines(h) + lines
  {
    if lines != [] {
      var n := |lines| - 1;
      LinesOfMore(h, lines[..n], overflows);
      LinesOfOneMore(AllTaken(h, lines[..n], overflows), lines[n], overflows(n));
    }
  }

  lemma LinesOfOneMore(h: seq<Input>, line: string, overflows: bool)
    ensures Lines(Taken(h, line, overflows)) == Lines(h) + [line]
  {
    LinesStay(h, Trim);
    LinesStay(if overflows then h + [Trim] else h, Line(line));
  }

  lemma LinesOfPoll(h: seq<Input>, lines: seq<string>, overflows: nat -> bool)
    ensures Lines(Polled(h, lines, overflows)) == Lines(h) + lines
  {
    if lines == [] {
      LinesStay(h, Quiet);
    } else {
      LinesOfMore(h, lines, overflows);
    }
  }

  /** Line numbers go on counting across rotations: what the windows see is what went before, and the current file's lines. */
  lemma {:induction false} WindowsSeeWhatIsReturned(offset: nat, inode: Option<nat>, looks: seq<Look>, overflows: Overflows)
    ensures Lines(InputsOf(Started(offset, inode), looks, overflows))
         == CarriedOver(offset, inode, looks) + ReadAll(ChunksSince(offset, inode, looks)).returned
  {
    ReaderFollowsTheLooks(offset, inode, looks);
    if looks != [] {
      var n := |looks| - 1;
      var r0, front, look := Started(offset, inode), looks[..n], looks[n];
      WindowsSeeWhatIsReturned(offset, inode, front, overflows);
      ReaderFollowsTheLooks(offset, inode, front);
      var s := VisitAll(r0, front);
      LinesOfPoll(InputsOf(r0, front, overflows), NewLines(s, look), (i: nat) => overflows(n, i));
      LookAdds(CarriedOver(offset, inode, front), s, look);
    }
  }

  /** Whether it starts over or not, a look adds its new lines to all the lines before. */
  lemma LookAdds(carried: seq<string>, s: Reader, look: Look)
    ensures carried + s.tail.returned + NewLines(s, look)
         == (if Resets(s, look) then carried + s.tail.returned else carried) + Visit(s, look).tail.returned
  {
    NewLinesAreReturned(s, look);
    if Resets(s, look) {
      assert [] + NewLines(s, look) == NewLines(s, look);
    } else {
      assert carried + (s.tail.returned + NewLines(s, look)) == carried + s.tail.returned + NewLines(s, look);
    }
  }

  /**
    For every way of overflowing, the lines the windows see are those carried over from before the last
    rotation and then those of the current file, exactly while no empty line of it is dropped. So a
    line's number is its number in the file plus the lines carried over.
   */
  lemma NumbersFollowTheFileExactlyWhen(offset: nat, inode: Option<nat>, looks: seq<Look>, overflows: Overflows)
    requires OnlyAppended(offset, inode, looks) && SightOf(offset, inode, looks).text.Some?
    ensures var s, carried := SightOf(offset, inode, looks), CarriedOver(offset, inode, looks);
            && s.start <= |s.text.value|
            && (Lines(InputsOf(Started(offset, inode), looks, overflows)) == carried + CutUp(s.text.value[s.start..]).lines <==>
                NoLineDropped(ChunksSince(offset, inode, looks)))
  {
    var chunks := ChunksSince(offset, inode, looks);
    WindowsSeeWhatIsReturned(offset, inode, looks, overflows);
    ChunksMakeUpTheFile(offset, inode, looks);
    EmptyLinesSurviveExactlyWhen(chunks);
    SameEndExactlyWhen(CarriedOver(offset, inode, looks), ReadAll(chunks).returned, CutUp(Joined(chunks)).lines);
  }

  lemma SameEndExactlyWhen(start: seq<string>, a: seq<string>, b: seq<string>)
    ensures start + a == start + b <==> a == b
  {
    if start + a == start + b {
      SameEnd(start, a, b);
    }
  }

  /**
    The event of a line of the current file: its number is off by the `carried` lines, its trailing
    context is the file's, and its leading context may reach back into what went before.
   */
  ghost predicate NumberedIn(e: ErrorEvent, carried: seq<string>, lines: seq<string>) {
    && |carried| < e.number <= |carried| + |lines|
    && e.line == lines[e.number - |carried| - 1] && e.after <= lines[e.number - |carried|..]
    && exists start: nat :: LeadsFrom(e, carried + lines, start)
  }

  predicate LeadsFrom(e: ErrorEvent, lines: seq<string>, start: nat) {
    start < e.number <= |lines| && e.before == Leading(lines, start, e.number - 1)
  }

  lemma IndexAcross(carried: seq<string>, lines: seq<string>, n: nat)
    requires |carried| < n <= |carried + lines|
    ensures (carried + lines)[n - 1] == lines[n - 1 - |carried|] && (carried + lines)[n..] == lines[n - |carried|..]
  {
  }

  lemma LeadsAcross(h: seq<Input>, e: ErrorEvent)
    requires PlacedIn(h, e)
    ensures exists start: nat :: LeadsFrom(e, Lines(h), start)
  {
    assert LeadsFrom(e, Lines(h), Starts(h)[e.number - 1]);
  }

  lemma NumberedAcross(h: seq<Input>, e: ErrorEvent, carried: seq<string>, lines: seq<string>)
    requires FinishedIn(h, e) && Lines(h) == carried + lines && e.number > |carried|
    ensures NumberedIn(e, carried, lines)
  {
    IndexAcross(carried, lines, e.number);
    LeadsAcross(h, e);
  }

  lemma EventsAreNumberedInTheFile(m: Matcher, offset: nat, inode: Option<nat>, looks: seq<Look>, overflows: Overflows, e: ErrorEvent)
    requires OnlyAppended(offset, inode, looks) && SightOf(offset, inode, looks).text.Some?
    requires NoLineDropped(ChunksSince(offset, inode, looks))
    requires e in ContextWindows.Run(m, InputsOf(Started(offset, inode), looks, overflows)).emitted
    requires e.number > |CarriedOver(offset, inode, looks)|
    ensures var s := SightOf(offset, inode, looks);
            s.start <= |s.text.value| && NumberedIn(e, CarriedOver(offset, inode, looks), CutUp(s.text.value[s.start..]).lines)
  {
    var s, inputs := SightOf(offset, inode, looks), InputsOf(Started(offset, inode), looks, overflows);
    NumbersFollowTheFileExactlyWhen(offset, inode, looks, overflows);
    EmittedContextIsFinal(m, inputs, e);
    NumberedAcross(inputs, e, CarriedOver(offset, inode, looks), CutUp(s.text.value[s.start..]).lines);
  }

  /** A rotated file's first line does not get number one: a line of the old file was read before it. */
  lemma RotationKeepsCounting(overflows: Overflows)
    ensures var looks := [Readable(File(1, "a\n"))] + [Readable(File(2, "E\n"))];
            && Lines(InputsOf(Started(0, Some(1)), looks, overflows)) == ["a", "E"]
            && CarriedOver(0, Some(1), looks) == ["a"]
  {
    var first, second := Readable(File(1, "a\n")), Readable(File(2, "E\n"));
    OneLine("a\n", "a");
    OneLine("E\n", "E");
    assert [first][..0] == [] && ([first] + [second])[..1] == [first];
    assert "a\n"[0..] == "a\n";
    assert ChunksSince(0, Some(1), [first]) == ["a\n"];
    assert SightOf(0, Some(1), [first]) == Sight(Some(1), 0, Some("a\n"));
    assert ChunksSince(0, Some(1), [first] + [second]) == ["E\n"];
    assert CarriedOver(0, Some(1), [first]) == [];
    ReadAllOfMore([], "a\n");
    ReadAllOfMore([], "E\n");
    assert [] + ["a\n"] == ["a\n"] && [] + ["E\n"] == ["E\n"];
    WindowsSeeWhatIsReturned(0, Some(1), [first] + [second], overflows);
  }

  lemma OneLine(text: string, line: string)
    requires text == line + "\n" && CutUp(line) == Cut([], line)
    ensures Read(Tail([], "", 0), text).returned == [line]
  {
    assert "" + text == text && text[..|text| - 1] == line;
  }
}
