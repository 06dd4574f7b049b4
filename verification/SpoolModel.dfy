/** The store-and-forward queue as values: a directory listing and what each operation makes of it. */
module SpoolModel {
  import opened Basics
  import opened FileNames
  import opened Records

  /** The JSON document of one spooled record. */
  datatype Document = Document(
    sink: string,
    payload: Payload,
    attempts: nat,
    firstQueued: Option<real>,
    nextAttempt: real)

  /** A file in the spool directory. */
  datatype File = File(name: string, doc: Document, bytes: nat)

  /** A record read from the directory; it outlives the file it was read from. */
  datatype Spooled = Spooled(name: string, doc: Document)

  /** `dir` is the listing, in name order. */
  datatype State = State(
    dir: seq<File>,
    sequence: nat,
    queued: nat,
    delivered: nat,
    dropped: nat,
    expired: nat)

  datatype Config = Config(maxBytes: int, maxAge: real, baseBackoff: real)

  const EMPTY := State([], 0, 0, 0, 0, 0)
  const MAX_BACKOFF := 3600.0

  // ---------- directory ----------

  /** Write a file: replace the one of that name, or add it where it sorts. */
  function Write(dir: seq<File>, f: File): seq<File> {
    if dir == [] then [f]
    else if dir[0].name == f.name then [f] + dir[1..]
    else if Before(f.name, dir[0].name) then [f] + dir
    else [dir[0]] + Write(dir[1..], f)
  }

  /** Unlink a file, if it is there. */
  function Unlink(dir: seq<File>, name: string): seq<File> {
    if dir == [] then []
    else if dir[0].name == name then Unlink(dir[1..], name)
    else [dir[0]] + Unlink(dir[1..], name)
  }

  function Bytes(dir: seq<File>): nat {
    if dir == [] then 0 else dir[0].bytes + Bytes(dir[1..])
  }

  /** Oldest-first shedding down to the size ceiling. */
  function Shed(maxBytes: int, dir: seq<File>): (kept: seq<File>)
    ensures |kept| <= |dir|
  {
    if dir == [] || Bytes(dir) <= maxBytes then dir else Shed(maxBytes, dir[1..])
  }

  // ---------- clock and backoff ----------

  function Millis(now: real): nat {
    if now < 0.0 then 0 else (now * 1000.0).Floor
  }

  function Pow2(k: nat): nat {
    if k == 0 then 1 else 2 * Pow2(k - 1)
  }

  /** The delay before jitter of the k-th attempt. */
  function Nominal(attempts: nat, base: real, maximum: real): real {
    var raw := base * Pow2(if attempts == 0 then 0 else attempts - 1) as real;
    if raw < maximum then raw else maximum
  }

  function Jittered(delay: real, jitter: real): real {
    delay * (0.5 + jitter * 0.5)
  }

  /** `jitter` is what `random.random()` returned. */
  function BackoffDelay(attempts: nat, base: real, maximum: real, jitter: real): real {
    Jittered(Nominal(attempts, base, maximum), jitter)
  }

  predicate Expired(c: Config, doc: Document, now: real) {
    doc.firstQueued.Some? && now - doc.firstQueued.value > c.maxAge
  }

  // ---------- operations ----------

  /** How far `put` gets before the disk stops it. */
  datatype Disk = NoDirectory | NoWrite | Stored

  function NewName(s: State, sink: string, now: real): string {
    NameOf(Millis(now), s.sequence + 1, sink)
  }

  function NewFile(s: State, sink: string, payload: Payload, bytes: nat, now: real): File {
    File(NewName(s, sink, now), Document(sink, payload, 0, Some(now), 0.0), bytes)
  }

  function Put(c: Config, s: State, sink: string, payload: Payload, bytes: nat, now: real, disk: Disk): State {
    match disk
    case NoDirectory => s
    case NoWrite => s.(sequence := s.sequence + 1)
    case Stored =>
      var written := Write(s.dir, NewFile(s, sink, payload, bytes, now));
      var kept := Shed(c.maxBytes, written);
      s.(dir := kept, sequence := s.sequence + 1, queued := s.queued + 1,
         dropped := s.dropped + |written| - |kept|)
  }

  function Due(dir: seq<File>, now: real): seq<Spooled> {
    if dir == [] then []
    else if now >= dir[0].doc.nextAttempt then [Spooled(dir[0].name, dir[0].doc)] + Due(dir[1..], now)
    else Due(dir[1..], now)
  }

  function Succeed(s: State, record: Spooled): State {
    s.(dir := Unlink(s.dir, record.name), delivered := s.delivered + 1)
  }

  function Retry(c: Config, doc: Document, now: real, jitter: real): Document {
    doc.(attempts := doc.attempts + 1,
         nextAttempt := now + BackoffDelay(doc.attempts + 1, c.baseBackoff, MAX_BACKOFF, jitter))
  }

  /** `written` is false when rewriting the entry fails. */
  function Fail(c: Config, s: State, record: Spooled, now: real, jitter: real, bytes: nat, written: bool): State {
    if Expired(c, record.doc, now) then
      s.(dir := Unlink(s.dir, record.name), expired := s.expired + 1)
    else if written then
      s.(dir := Write(s.dir, File(record.name, Retry(c, record.doc, now, jitter), bytes)))
    else s
  }

  function Fresh(c: Config, dir: seq<File>, now: real): (kept: seq<File>)
    ensures |kept| <= |dir|
  {
    if dir == [] then []
    else if Expired(c, dir[0].doc, now) then Fresh(c, dir[1..], now)
    else [dir[0]] + Fresh(c, dir[1..], now)
  }

  function Purge(c: Config, s: State, now: real): State {
    var kept := Fresh(c, s.dir, now);
    s.(dir := kept, expired := s.expired + |s.dir| - |kept|)
  }
}
