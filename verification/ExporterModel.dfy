/** The exporter: consent and redaction on the way in, the spool in the middle, sinks on the way out. */
module ExporterModel {
  import opened Basics
  import opened Records
  import Spool = SpoolModel
  import SpoolRuns
  import Issues = LifecycleModel

  /** What the consent lookup gave for the proposal's workload. */
  datatype Consent = NoProvider | Answered(permits: bool) | LookupFailed

  predicate Permits(consent: Consent) {
    match consent
    case NoProvider => true
    case Answered(permits) => permits
    case LookupFailed => false
  }

  datatype Config = Config(
    spool: Spool.Config,
    eventSinks: set<string>,
    trackers: map<string, Issues.Config>,
    levels: map<string, Level>,
    node: map<string, Value>)

  /** A record that reached an event sink, with its idempotency key, whether or not the sink said so. */
  datatype Receipt = Receipt(name: string, sink: string, payload: Payload, key: Value)

  datatype State = State(line: SpoolRuns.Line, worlds: map<string, Issues.World>, receipts: seq<Receipt>)

  function Start(c: Config): State {
    State(SpoolRuns.IDLE, map name | name in c.trackers :: Issues.START, [])
  }

  // ---------- submission ----------

  function LevelFor(c: Config, sink: string): Level {
    if sink in c.levels then c.levels[sink] else Metadata
  }

  /** `str(mapping.get("problem_key", absent))`: a null reads as the word. */
  function KeyText(m: map<Field, Value>, absent: string): string {
    if ProblemKey !in m then absent
    else match m[ProblemKey] case Text(text) => text case _ => "None"
  }

  function ProblemKeyText(p: Proposal): string {
    KeyText(p.metadata, "unknown")
  }

  function TallyOf(v: Value): nat {
    match v case Count(n) => n case _ => 0
  }

  /** The document spooled for a sink: what the level permits, and the key that retries repeat. */
  function ExportDocument(c: Config, sink: string, p: Proposal, consent: Consent): Payload {
    var payload := BuildPayload(p, EffectiveLevel(LevelFor(c, sink), Permits(consent)), c.node);
    payload[IdempotencyKey := Text(KeyOf(ProblemKeyText(p), TallyOf(Get(payload, TotalOccurrences))))]
  }

  // ---------- delivery ----------

  /** The fields of a delivered payload the issue lifecycle reads. */
  function ReadRecord(payload: Payload): Issues.Record {
    Issues.Record(
      match Get(payload, Grading) { case Grade(severity) => severity case _ => Other("") },
      KeyText(payload, ""),
      match Get(payload, LastSeen) { case Moment(stamp) => stamp case _ => Missing },
      match Get(payload, RootCause) { case Text(text) => text case _ => "" },
      TallyOf(Get(payload, TotalOccurrences)))
  }

  function Stripped(payload: Payload): Payload {
    payload - {IdempotencyKey}
  }

  /**
    What the outside world does during one delivery attempt: a `send` returns or raises, and one that
    raises may have arrived all the same.
   */
  datatype Reply = Reply(sends: bool, arrives: bool, tracker: Issues.Replies, jitter: real, bytes: nat, written: bool)

  datatype Event =
    | Submitted(now: real, sink: string, p: Proposal, consent: Consent, bytes: nat, disk: Spool.Disk)
    | Listed(now: real)
    | Attempted(now: real, reply: Reply)
    | Swept(now: real, refused: map<string, set<Issues.Ref>>)
    | Purged(now: real)
    | ClosedOutside(now: real, sink: string, reference: Issues.Ref)
    | Restarted(now: real)

  /** The delivery in progress and what becomes of it. */
  datatype Result = Idle | Accepted | Handled | Unknown | Raised

  function ResultOf(c: Config, s: State, now: real, reply: Reply): Result {
    if s.line.flight == [] then Idle
    else
      var r := s.line.flight[0];
      if r.doc.sink in c.eventSinks then (if reply.sends then Accepted else Raised)
      else if r.doc.sink in c.trackers && r.doc.sink in s.worlds then
        var record := ReadRecord(Stripped(r.doc.payload));
        var world := s.worlds[r.doc.sink];
        var d := Issues.Decide(c.trackers[r.doc.sink], world, record, now, reply.tracker);
        if Issues.OutcomeOf(world, record, d).Raised? then Raised else Handled
      else Unknown
  }

  /** A delivery that is neither put off nor thrown away. */
  predicate Succeeds(result: Result) {
    result.Accepted? || result.Handled?
  }

  function Refused(refused: map<string, set<Issues.Ref>>, sink: string): set<Issues.Ref> {
    if sink in refused then refused[sink] else {}
  }

  /** The operation the spool performs in a step. */
  function SpoolMove(c: Config, s: State, e: Event): Option<SpoolRuns.Event> {
    match e
    case Submitted(now, sink, p, consent, bytes, disk) =>
      Some(SpoolRuns.Submitted(now, sink, ExportDocument(c, sink, p, consent), bytes, disk))
    case Listed(now) => Some(SpoolRuns.Listed(now))
    case Attempted(now, reply) =>
      match ResultOf(c, s, now, reply) {
        case Idle => None
        case Raised => Some(SpoolRuns.Failed(now, reply.jitter, reply.bytes, reply.written))
        case _ => Some(SpoolRuns.Delivered(now))
      }
    case Swept(_, _) => None
    case Purged(now) => Some(SpoolRuns.Purged(now))
    case ClosedOutside(_, _, _) => None
    case Restarted(now) => Some(SpoolRuns.Restarted(now))
  }

  /** The operation one tracker's lifecycle performs in a step. */
  function TrackerMove(c: Config, s: State, e: Event, sink: string): Option<Issues.Event> {
    match e
    case Attempted(now, reply) =>
      if s.line.flight != [] && s.line.flight[0].doc.sink == sink && sink !in c.eventSinks
      then Some(Issues.Handled(ReadRecord(Stripped(s.line.flight[0].doc.payload)), now, reply.tracker))
      else None
    case Swept(now, refused) => Some(Issues.Swept(now, Refused(refused, sink)))
    case ClosedOutside(now, where, reference) =>
      if where == sink then Some(Issues.ClosedOutside(now, reference)) else None
    case Restarted(now) => Some(Issues.Restarted(now))
    case _ => None
  }

  function MoveLine(c: Config, line: SpoolRuns.Line, move: Option<SpoolRuns.Event>): SpoolRuns.Line {
    match move case None => line case Some(e) => SpoolRuns.Step(c.spool, line, e)
  }

  function MoveWorld(c: Issues.Config, world: Issues.World, move: Option<Issues.Event>): Issues.World {
    match move case None => world case Some(e) => Issues.Step(c, world, e)
  }

  function ReceiptOf(r: Spool.Spooled): Receipt {
    Receipt(r.name, r.doc.sink, Stripped(r.doc.payload), Get(r.doc.payload, IdempotencyKey))
  }

  /** The attempt puts its record in the hands of an event sink. */
  predicate Reaches(c: Config, s: State, e: Event) {
    e.Attempted? && s.line.flight != [] && s.line.flight[0].doc.sink in c.eventSinks && (e.reply.sends || e.reply.arrives)
  }

  function Step(c: Config, s: State, e: Event): State {
    State(MoveLine(c, s.line, SpoolMove(c, s, e)),
          map sink | sink in c.trackers && sink in s.worlds ::
            MoveWorld(c.trackers[sink], s.worlds[sink], TrackerMove(c, s, e, sink)),
          if Reaches(c, s, e) then s.receipts + [ReceiptOf(s.line.flight[0])] else s.receipts)
  }

  function Run(c: Config, es: seq<Event>): State {
    if es == [] then Start(c) else Step(c, Run(c, es[..|es| - 1]), es[|es| - 1])
  }
}
