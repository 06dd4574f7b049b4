/** Reassembling log lines from whatever a file happens to contain when it is read. */
module LogTail {
  import opened Basics

  /** Text cut at its newlines: the lines that are complete, and what follows the last newline. */
  datatype Cut = Cut(lines: seq<string>, rest: string)

  function CutUp(text: string): Cut {
    if text == "" then Cut([], "")
    else
      var before, last := CutUp(text[..|text| - 1]), text[|text| - 1];
      if last == '\n' then Cut(before.lines + [before.rest], "") else Cut(before.lines, before.rest + [last])
  }

  /** `str.splitlines` where `\n` is the only separator: no empty last line. */
  function SplitLines(text: string): seq<string> {
    var cut := CutUp(text);
    cut.lines + if cut.rest == "" then [] else [cut.rest]
  }

  function EndsWithNewline(text: string): bool {
    text != "" && text[|text| - 1] == '\n'
  }

  /** `text.rpartition("\n")`: what stands before the last newline, and after it. */
  function BeforeLastNewline(text: string): string {
    if text == "" then ""
    else if text[|text| - 1] == '\n' then text[..|text| - 1]
    else BeforeLastNewline(text[..|text| - 1])
  }

  function AfterLastNewline(text: string): string {
    if text == "" || text[|text| - 1] == '\n' then ""
    else AfterLastNewline(text[..|text| - 1]) + [text[|text| - 1]]
  }

  /** The file as it is found: its identity and its content. */
  datatype File = File(inode: nat, content: string)

  /** What is found on reading: no file, a file that cannot be opened, or a readable one. */
  datatype Look = Missing | Unopenable(f: File) | Readable(f: File)

  class TailedFile {
    var offset: nat
    var inode: Option<nat>
    var partial: string
    ghost var reader: Reader

    ghost predicate Valid()
      reads this
    {
      reader.offset == offset && reader.inode == inode && reader.tail.partial == partial
    }

    /** Tailing begins at the end of what the file already holds. */
    constructor (offset: nat, inode: Option<nat>)
      ensures Valid() && reader == Started(offset, inode)
    {
      this.offset, this.inode, partial := offset, inode, "";
      reader := Started(offset, inode);
    }

    /** The file was replaced or truncated since the last read. */
    method DetectRotation(f: File) returns (rotated: bool)
      modifies this
      ensures rotated == Rotated(old(offset), old(inode), f)
      ensures rotated ==> offset == 0 && inode == Some(f.inode) && partial == ""
      ensures !rotated ==> offset == old(offset) && inode == old(inode) && partial == old(partial)
      ensures reader == old(reader)
    {
      rotated := (inode.Some? && f.inode != inode.value) || |f.content| < offset;
      if rotated {
        inode, offset, partial := Some(f.inode), 0, "";
      }
    }

    method ReadNewLines(look: Look) returns (lines: seq<string>)
      requires Valid()
      modifies this
      ensures Valid() && reader == Visit(old(reader), look)
      ensures reader.tail.returned == (if Resets(old(reader), look) then [] else old(reader.tail.returned)) + lines
    {
      if look.Missing? {
        return [];
      }
      var rotated := DetectRotation(look.f);
      reader := Visit(reader, look);
      if look.Unopenable? {
        return [];
      }
      lines := ReadFrom(look.f);
    }

    /** The rest of a read, from the offset on. */
    method ReadFrom(f: File) returns (lines: seq<string>)
      requires offset <= |f.content|
      modifies this`offset, this`inode, this`partial
      ensures offset == |f.content| && inode == Some(if old(inode).None? then f.inode else old(inode).value)
      ensures lines == ReadLines(old(partial), f.content[old(offset)..])
      ensures partial == ReadRest(old(partial), f.content[old(offset)..])
    {
      var data := f.content[offset..];
      offset := |f.content|;
      if inode.None? {
        inode := Some(f.inode);
      }
      if data == "" {
        return [];
      }
      var chunk := partial + data;
      partial := "";
      if chunk[|chunk| - 1] != '\n' {
        partial := AfterLastNewline(chunk);
        chunk := BeforeLastNewline(chunk);
        if chunk == "" {
          return [];
        }
      }
      lines := SplitLines(chunk);
    }
  }

  /** The read starts over. */
  predicate Resets(r: Reader, look: Look) {
    !look.Missing? && Rotated(r.offset, r.inode, look.f)
  }

  predicate Rotated(offset: nat, inode: Option<nat>, f: File) {
    (inode.Some? && f.inode != inode.value) || |f.content| < offset
  }

  /** The lines one read returns. */
  function ReadLines(partial: string, data: string): seq<string> {
    if data == "" then []
    else if EndsWithNewline(partial + data) then SplitLines(partial + data)
    else SplitLines(BeforeLastNewline(partial + data))
  }

  /** The text one read holds back. */
  function ReadRest(partial: string, data: string): string {
    if data == "" then partial
    else if EndsWithNewline(partial + data) then ""
    else AfterLastNewline(partial + data)
  }

  /** Lines, each with its newline. */
  function Ended(lines: seq<string>): string {
    if lines == [] then "" else Ended(lines[..|lines| - 1]) + lines[|lines| - 1] + "\n"
  }

  predicate OneLiner(line: string) {
    '\n' !in line
  }

  predicate OneLiners(lines: seq<string>) {
    forall line | line in lines :: OneLiner(line)
  }

  lemma EndedOfOneMore(lines: seq<string>, line: string)
    ensures Ended(lines + [line]) == Ended(lines) + line + "\n"
  {
    assert (lines + [line])[..|lines|] == lines;
  }

  /** The lines and the rest are the text cut at every newline, and only there. */
  lemma {:induction false} CutMakesUpTheText(text: string)
    ensures Ended(CutUp(text).lines) + CutUp(text).rest == text
    ensures OneLiners(CutUp(text).lines) && OneLiner(CutUp(text).rest)
  {
    if text != "" {
      CutMakesUpTheText(text[..|text| - 1]);
      var before := CutUp(text[..|text| - 1]);
      EndedOfOneMore(before.lines, before.rest);
      CharacterAdds(text, Ended(before.lines), before.rest);
    }
  }

  lemma CharacterAdds(text: string, lines: string, rest: string)
    requires text != "" && lines + rest == text[..|text| - 1]
    ensures lines + (rest + [text[|text| - 1]]) == text && lines + rest + [text[|text| - 1]] == text
  {
  }

  // ---------- one read ----------

  lemma {:induction false} CutAtLastNewline(text: string)
    requires text != "" && !EndsWithNewline(text)
    ensures AfterLastNewline(text) == CutUp(text).rest != ""
    ensures var head := CutUp(BeforeLastNewline(text));
            CutUp(text).lines == if CutUp(text).rest == text then [] else head.lines + [head.rest]
    ensures CutUp(text).rest == text ==> BeforeLastNewline(text) == ""
  {
    var front, last := text[..|text| - 1], text[|text| - 1];
    if front == "" {
      assert CutUp(front) == Cut([], "");
    } else if EndsWithNewline(front) {
      assert |CutUp(front).rest| == 0;
    } else {
      CutAtLastNewline(front);
      NothingCutExactlyWhen(front);
    }
  }

  lemma {:induction false} RestIsSuffix(text: string)
    ensures |CutUp(text).rest| <= |text| && CutUp(text).rest == text[|text| - |CutUp(text).rest|..]
  {
    if text != "" && text[|text| - 1] != '\n' {
      var front, last := text[..|text| - 1], text[|text| - 1];
      RestIsSuffix(front);
      var k := |front| - |CutUp(front).rest|;
      assert text[k..] == front[k..] + [last];
    }
  }

  lemma {:induction false} NothingCutExactlyWhen(text: string)
    ensures |CutUp(text).rest| <= |text|
    ensures CutUp(text).lines == [] <==> CutUp(text).rest == text
  {
    RestIsSuffix(text);
    if text != "" {
      var front, last := text[..|text| - 1], text[|text| - 1];
      NothingCutExactlyWhen(front);
      assert text == front + [last];
    }
  }

  /** A read that ends in a partial line drops the line before it, if that one is empty. */
  predicate DropsLine(partial: string, data: string) {
    var cut := CutUp(partial + data);
    data != "" && cut.rest != "" && cut.lines != [] && cut.lines[|cut.lines| - 1] == ""
  }

  lemma ReadReturnsCompleteLines(partial: string, data: string)
    requires CutUp(partial) == Cut([], partial)
    ensures ReadRest(partial, data) == CutUp(partial + data).rest
    ensures CutUp(partial + data).lines == ReadLines(partial, data) + if DropsLine(partial, data) then [""] else []
  {
    var text := partial + data;
    if data == "" {
      assert text == partial;
    } else if EndsWithNewline(text) {
      assert CutUp(text).rest == "";
    } else {
      CutAtLastNewline(text);
      NothingCutExactlyWhen(text);
    }
  }

  lemma {:induction false} RestHasNoNewline(text: string)
    ensures CutUp(CutUp(text).rest) == Cut([], CutUp(text).rest)
  {
    if text != "" && text[|text| - 1] != '\n' {
      var before := CutUp(text[..|text| - 1]);
      RestHasNoNewline(text[..|text| - 1]);
      assert (before.rest + [text[|text| - 1]])[..|before.rest|] == before.rest;
    }
  }

  /** Cutting continues from where it left off. */
  lemma {:induction false} CutContinues(a: string, b: string)
    ensures CutUp(a + b).lines == CutUp(a).lines + CutUp(CutUp(a).rest + b).lines
    ensures CutUp(a + b).rest == CutUp(CutUp(a).rest + b).rest
  {
    var rest := CutUp(a).rest;
    if b == "" {
      assert a + b == a && rest + b == rest;
      RestHasNoNewline(a);
    } else {
      var front, last := b[..|b| - 1], b[|b| - 1];
      CutContinues(a, front);
      assert (a + b)[..|a + b| - 1] == a + front && (a + b)[|a + b| - 1] == last;
      assert (rest + b)[..|rest + b| - 1] == rest + front && (rest + b)[|rest + b| - 1] == last;
    }
  }

  // ---------- any way of reading ----------

  /** What has been returned so far, what is held back, and how many reads dropped a line. */
  datatype Tail = Tail(returned: seq<string>, partial: string, drops: nat)

  function Read(t: Tail, data: string): Tail {
    Tail(t.returned + ReadLines(t.partial, data), ReadRest(t.partial, data),
         t.drops + if DropsLine(t.partial, data) then 1 else 0)
  }

  function ReadAll(chunks: seq<string>): Tail {
    if chunks == [] then Tail([], "", 0) else Read(ReadAll(chunks[..|chunks| - 1]), chunks[|chunks| - 1])
  }

  function Joined(chunks: seq<string>): string {
    if chunks == [] then "" else Joined(chunks[..|chunks| - 1]) + chunks[|chunks| - 1]
  }

  function NonEmpty(lines: seq<string>): seq<string> {
    if lines == [] then []
    else NonEmpty(lines[..|lines| - 1]) + if lines[|lines| - 1] == "" then [] else [lines[|lines| - 1]]
  }

  lemma {:induction false} NonEmptyJoins(a: seq<string>, b: seq<string>)
    ensures NonEmpty(a + b) == NonEmpty(a) + NonEmpty(b)
  {
    if b == [] {
      assert a + b == a;
    } else {
      NonEmptyJoins(a, b[..|b| - 1]);
      assert (a + b)[..|a + b| - 1] == a + b[..|b| - 1];
    }
  }

  /** What has been returned and held back, against the text read so far. */
  predicate Follows(t: Tail, text: string) {
    && t.partial == CutUp(text).rest
    && NonEmpty(t.returned) == NonEmpty(CutUp(text).lines)
    && |CutUp(text).lines| == |t.returned| + t.drops
    && (t.drops == 0 ==> t.returned == CutUp(text).lines)
  }

  lemma ReadFollowsTheText(t: Tail, text: string, data: string)
    requires Follows(t, text)
    ensures Follows(Read(t, data), text + data)
  {
    RestHasNoNewline(text);
    ReadReturnsCompleteLines(t.partial, data);
    CutContinues(text, data);
    AppendingKeepsNonEmpty(t.returned, CutUp(text).lines, ReadLines(t.partial, data), DropsLine(t.partial, data));
  }

  lemma AppendingKeepsNonEmpty(returned: seq<string>, all: seq<string>, lines: seq<string>, dropped: bool)
    requires NonEmpty(returned) == NonEmpty(all)
    ensures NonEmpty(returned + lines) == NonEmpty(all + (lines + if dropped then [""] else []))
  {
    NonEmptyJoins(returned, lines);
    NonEmptyJoins(all, lines + if dropped then [""] else []);
    NonEmptyJoins(lines, if dropped then [""] else []);
    assert NonEmpty([""]) == [] by { assert [""][..0] == []; }
    assert lines + [] == lines;
  }

  lemma {:induction false} ReadingFollowsTheText(chunks: seq<string>)
    ensures Follows(ReadAll(chunks), Joined(chunks))
  {
    if chunks != [] {
      ReadingFollowsTheText(chunks[..|chunks| - 1]);
      ReadFollowsTheText(ReadAll(chunks[..|chunks| - 1]), Joined(chunks[..|chunks| - 1]), chunks[|chunks| - 1]);
    }
  }

  /** However the text is split across reads, the non-empty lines and the held-back text are the same. */
  lemma TailingIsChunkIndependent(chunks: seq<string>, chunks': seq<string>)
    requires Joined(chunks) == Joined(chunks')
    ensures NonEmpty(ReadAll(chunks).returned) == NonEmpty(ReadAll(chunks').returned)
    ensures ReadAll(chunks).partial == ReadAll(chunks').partial
    ensures NonEmpty(ReadAll(chunks).returned) == NonEmpty(CutUp(Joined(chunks)).lines)
  {
    ReadingFollowsTheText(chunks);
    ReadingFollowsTheText(chunks');
  }

  /** Chunk `k`, continuing the unfinished text before it, ends unfinished right after an empty line. */
  predicate DropsAt(chunks: seq<string>, k: nat) {
    k < |chunks| && DropsLine(CutUp(Joined(chunks[..k])).rest, chunks[k])
  }

  predicate NoLineDropped(chunks: seq<string>) {
    forall k | 0 <= k < |chunks| :: !DropsAt(chunks, k)
  }

  lemma NoLineDroppedBefore(chunks: seq<string>)
    requires chunks != []
    ensures NoLineDropped(chunks) <==> NoLineDropped(chunks[..|chunks| - 1]) && !DropsAt(chunks, |chunks| - 1)
  {
    var front := chunks[..|chunks| - 1];
    forall k | 0 <= k < |front| ensures DropsAt(front, k) <==> DropsAt(chunks, k) {
      assert front[..k] == chunks[..k];
    }
  }

  lemma {:induction false} DropsExactlyWhen(chunks: seq<string>)
    ensures ReadAll(chunks).drops == 0 <==> NoLineDropped(chunks)
  {
    if chunks != [] {
      DropsExactlyWhen(chunks[..|chunks| - 1]);
      ReadingFollowsTheText(chunks[..|chunks| - 1]);
      NoLineDroppedBefore(chunks);
    }
  }

  /** All lines, empty ones included, come back exactly when no read ends in a partial line after an empty one. */
  lemma EmptyLinesSurviveExactlyWhen(chunks: seq<string>)
    ensures ReadAll(chunks).returned == CutUp(Joined(chunks)).lines <==> NoLineDropped(chunks)
  {
    ReadingFollowsTheText(chunks);
    DropsExactlyWhen(chunks);
  }

  /** The failing case: an empty line just before text that is still being written. */
  lemma EmptyLineIsDropped()
    ensures ReadAll(["\na"]).returned == [] && CutUp("\na").lines == [""]
  {
    assert ["\na"][..0] == [];
    assert "" + "\na" == "\na";
    assert "\na"[..1] == "\n" && "\n"[..0] == "";
    assert CutUp("") == Cut([], "");
    assert CutUp("\n") == Cut([""], "");
    assert BeforeLastNewline("\n") == "";
    assert BeforeLastNewline("\na") == "";
  }

  // ---------- rotation ----------

  /** A reader's place in the file, and what it made of the text since it last started over. */
  datatype Reader = Reader(offset: nat, inode: Option<nat>, tail: Tail)

  function Started(offset: nat, inode: Option<nat>): Reader {
    Reader(offset, inode, Tail([], "", 0))
  }

  function Visit(r: Reader, look: Look): Reader {
    match look
    case Missing => r
    case Unopenable(f) =>
      if Rotated(r.offset, r.inode, f) then Reader(0, Some(f.inode), Tail([], "", 0)) else r
    case Readable(f) =>
      if Rotated(r.offset, r.inode, f) then
        Reader(|f.content|, Some(f.inode), Read(Tail([], "", 0), f.content))
      else
        Reader(|f.content|, Some(if r.inode.None? then f.inode else r.inode.value), Read(r.tail, f.content[r.offset..]))
  }

  function VisitAll(r: Reader, looks: seq<Look>): Reader {
    if looks == [] then r else Visit(VisitAll(r, looks[..|looks| - 1]), looks[|looks| - 1])
  }

  /** What looking at a file has shown: its identity, where reading it began, and its text once it was read. */
  datatype Sight = Sight(inode: Option<nat>, start: nat, text: Option<string>)

  function Size(s: Sight): nat {
    if s.text.Some? then |s.text.value| else s.start
  }

  /** Not the file seen before, or less of it. */
  predicate IsNew(s: Sight, f: File) {
    (s.inode.Some? && s.inode.value != f.inode) || Size(s) > |f.content|
  }

  function SightAfter(s: Sight, look: Look): Sight {
    match look
    case Missing => s
    case Unopenable(f) => if IsNew(s, f) then Sight(Some(f.inode), 0, Some("")) else s
    case Readable(f) => Sight(Some(f.inode), if IsNew(s, f) then 0 else s.start, Some(f.content))
  }

  /** What the looks alone tell, whatever the reader makes of them. */
  function SightOf(offset: nat, inode: Option<nat>, looks: seq<Look>): Sight {
    if looks == [] then Sight(inode, offset, None)
    else SightAfter(SightOf(offset, inode, looks[..|looks| - 1]), looks[|looks| - 1])
  }

  /** A file that is not new has grown from what it was. */
  predicate Extends(s: Sight, look: Look) {
    look.Readable? && !IsNew(s, look.f) && s.text.Some? ==> s.text.value <= look.f.content
  }

  /** Whatever is found is another file, a shorter one, or what was known with more text after it. */
  predicate OnlyAppended(offset: nat, inode: Option<nat>, looks: seq<Look>) {
    forall i | 0 <= i < |looks| :: Extends(SightOf(offset, inode, looks[..i]), looks[i])
  }

  /** The pieces of text found since the file was last new. */
  function ChunksSince(offset: nat, inode: Option<nat>, looks: seq<Look>): seq<string> {
    if looks == [] then []
    else
      var front, look := looks[..|looks| - 1], looks[|looks| - 1];
      ChunksAfter(SightOf(offset, inode, front), ChunksSince(offset, inode, front), look)
  }

  function ChunksAfter(s: Sight, before: seq<string>, look: Look): seq<string> {
    match look
    case Missing => before
    case Unopenable(f) => if IsNew(s, f) then [] else before
    case Readable(f) => if IsNew(s, f) then [f.content] else before + [f.content[Size(s)..]]
  }

  /** The reader stands where the looks have led, and has read those pieces one by one. */
  predicate Matches(r: Reader, s: Sight, chunks: seq<string>) {
    r.offset == Size(s) && r.inode == s.inode && r.tail == ReadAll(chunks)
  }

  lemma {:induction false} ReaderFollowsTheLooks(offset: nat, inode: Option<nat>, looks: seq<Look>)
    ensures Matches(VisitAll(Started(offset, inode), looks), SightOf(offset, inode, looks), ChunksSince(offset, inode, looks))
  {
    if looks != [] {
      var front := looks[..|looks| - 1];
      ReaderFollowsTheLooks(offset, inode, front);
      NextLookMatches(VisitAll(Started(offset, inode), front), SightOf(offset, inode, front),
                      ChunksSince(offset, inode, front), looks[|looks| - 1]);
    }
  }

  lemma NextLookMatches(r: Reader, s: Sight, chunks: seq<string>, look: Look)
    requires Matches(r, s, chunks)
    ensures Matches(Visit(r, look), SightAfter(s, look), ChunksAfter(s, chunks, look))
  {
    if look.Readable? && IsNew(s, look.f) {
      ReadAllOfMore([], look.f.content);
      assert [] + [look.f.content] == [look.f.content];
    } else if look.Readable? {
      ReadAllOfMore(chunks, look.f.content[Size(s)..]);
    }
  }

  lemma ReadAllOfMore(chunks: seq<string>, data: string)
    ensures ReadAll(chunks + [data]) == Read(ReadAll(chunks), data)
    ensures Joined(chunks + [data]) == Joined(chunks) + data
  {
    assert (chunks + [data])[..|chunks|] == chunks;
  }

  /** Those pieces, put together, are the text from where reading it began. */
  predicate MakesUp(s: Sight, chunks: seq<string>) {
    && (s.text.Some? ==> s.start <= |s.text.value| && Joined(chunks) == s.text.value[s.start..])
    && (s.text.None? ==> chunks == [])
  }

  lemma {:induction false} ChunksMakeUpTheFile(offset: nat, inode: Option<nat>, looks: seq<Look>)
    requires OnlyAppended(offset, inode, looks)
    ensures MakesUp(SightOf(offset, inode, looks), ChunksSince(offset, inode, looks))
  {
    if looks != [] {
      var front := looks[..|looks| - 1];
      OneLookFewer(offset, inode, looks);
      ChunksMakeUpTheFile(offset, inode, front);
      NextChunkContinues(SightOf(offset, inode, front), ChunksSince(offset, inode, front), looks[|looks| - 1]);
    }
  }

  lemma OneLookFewer(offset: nat, inode: Option<nat>, looks: seq<Look>)
    requires looks != [] && OnlyAppended(offset, inode, looks)
    ensures OnlyAppended(offset, inode, looks[..|looks| - 1])
    ensures Extends(SightOf(offset, inode, looks[..|looks| - 1]), looks[|looks| - 1])
  {
    var front := looks[..|looks| - 1];
    forall i | 0 <= i < |front| ensures Extends(SightOf(offset, inode, front[..i]), front[i]) {
      assert front[..i] == looks[..i];
    }
  }

  lemma NextChunkContinues(s: Sight, chunks: seq<string>, look: Look)
    requires Extends(s, look) && MakesUp(s, chunks)
    ensures MakesUp(SightAfter(s, look), ChunksAfter(s, chunks, look))
  {
    if look.Readable? && IsNew(s, look.f) {
      OneChunk(look.f.content);
    } else if look.Readable? && s.text.None? {
      ReadAllOfMore([], look.f.content[s.start..]);
      assert "" + look.f.content[s.start..] == look.f.content[s.start..];
    } else if look.Readable? {
      OneChunkMore(chunks, s.text.value, s.start, look.f.content);
    }
  }

  lemma OneChunk(content: string)
    ensures Joined([content]) == content == content[0..]
  {
    ReadAllOfMore([], content);
    assert [] + [content] == [content] && "" + content == content;
  }

  lemma OneChunkMore(chunks: seq<string>, was: string, start: nat, content: string)
    requires was <= content && start <= |was| && Joined(chunks) == was[start..]
    ensures Joined(chunks + [content[|was|..]]) == content[start..]
  {
    ReadAllOfMore(chunks, content[|was|..]);
    StartAndRest(was, start, content);
  }

  lemma StartAndRest(was: string, start: nat, content: string)
    requires was <= content && start <= |was|
    ensures was[start..] + content[|was|..] == content[start..]
  {
  }

  /**
    Through any number of rotations and failed reads, what the reader has returned and holds back since the
    file was last another one, or shorter, is that file's text from where reading it began, and nothing of
    an earlier file.
   */
  lemma TailFollowsTheFile(offset: nat, inode: Option<nat>, looks: seq<Look>)
    requires OnlyAppended(offset, inode, looks)
    ensures var r, s := VisitAll(Started(offset, inode), looks), SightOf(offset, inode, looks);
            && r.offset == Size(s) && r.inode == s.inode
            && (s.text.Some? ==> s.start <= |s.text.value| && Follows(r.tail, s.text.value[s.start..]))
            && (s.text.None? ==> r.tail == Tail([], "", 0))
  {
    ChunksMakeUpTheFile(offset, inode, looks);
    ReaderFollowsTheLooks(offset, inode, looks);
    ReadingFollowsTheText(ChunksSince(offset, inode, looks));
  }
}
