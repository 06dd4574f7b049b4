/** Proposals on disk: one document per problem, folded together as the problem recurs. */
module RemediationModel {
  import opened Basics
  import opened Records

  type Problem = string

  /** A result to be turned into a proposal. */
  datatype Result = Result(problem: Problem, occurrences: nat, fromCache: bool, at: string, findings: string)

  datatype Delivery = Delivery(status: string, reference: string)

  /** The stored proposal: the latest analysis, and the history of the problem. */
  datatype Document = Document(
    findings: string,
    firstSeen: string,
    lastSeen: string,
    total: nat,
    analyses: nat,
    exports: map<string, Delivery>)

  type Store = map<Problem, Document>

  function Generate(r: Result): Document {
    Document(r.findings, r.at, r.at, r.occurrences, 1, map[])
  }

  /** Occurrence history accumulates; the analysis itself is replaced. */
  function Merge(previous: Document, proposal: Document, fromCache: bool): Document {
    proposal.(firstSeen := OrElse(previous.firstSeen, proposal.firstSeen),
              total := previous.total + proposal.total,
              analyses := previous.analyses + (if fromCache then 0 else 1),
              exports := if previous.exports != map[] then previous.exports else proposal.exports)
  }

  /** The proposal handed to export; it does not depend on whether the write succeeds. */
  function Proposed(store: Store, r: Result, readable: bool): Document {
    if r.problem in store && readable then Merge(store[r.problem], Generate(r), r.fromCache) else Generate(r)
  }

  function Persist(store: Store, r: Result, readable: bool, writable: bool): Store {
    if writable then store[r.problem := Proposed(store, r, readable)] else store
  }

  /** `record_delivery`: note where a proposal went. */
  function Note(store: Store, problem: Problem, sink: string, delivery: Delivery, ok: bool): Store {
    if problem in store && ok
    then store[problem := store[problem].(exports := store[problem].exports[sink := delivery])]
    else store
  }

  // ---------- runs ----------

  datatype Event =
    | Handled(r: Result, readable: bool, writable: bool)
    | Noted(problem: Problem, sink: string, delivery: Delivery, ok: bool)

  /** What export was handed for a problem: its idempotency key is made of these. */
  datatype Handout = Handout(problem: Problem, total: nat)

  datatype State = State(store: Store, handouts: seq<Handout>)

  function Step(s: State, e: Event): State {
    match e
    case Handled(r, readable, writable) =>
      State(Persist(s.store, r, readable, writable),
            s.handouts + [Handout(r.problem, Proposed(s.store, r, readable).total)])
    case Noted(problem, sink, delivery, ok) => s.(store := Note(s.store, problem, sink, delivery, ok))
  }

  function Run(es: seq<Event>): State {
    if es == [] then State(map[], []) else Step(Run(es[..|es| - 1]), es[|es| - 1])
  }

  /** A problem's own proposal can always be read back and written, whatever happens to others. */
  predicate DiskWorks(es: seq<Event>, problem: Problem) {
    forall i | 0 <= i < |es| && Reports(es[i], problem) :: es[i].readable && es[i].writable
  }

  predicate SomethingNew(es: seq<Event>, problem: Problem) {
    forall i | 0 <= i < |es| && Reports(es[i], problem) :: es[i].r.occurrences > 0
  }

  predicate Reports(e: Event, problem: Problem) {
    e.Handled? && e.r.problem == problem
  }

  /** Occurrences reported for a problem over a run. */
  function Reported(es: seq<Event>, problem: Problem): nat {
    if es == [] then 0
    else
      var last := es[|es| - 1];
      Reported(es[..|es| - 1], problem)
      + if last.Handled? && last.r.problem == problem then last.r.occurrences else 0
  }

  /** Real inferences reported for a problem over a run; the first result counts as one. */
  function Inferences(es: seq<Event>, problem: Problem): nat {
    if es == [] then 0
    else
      var last := es[|es| - 1];
      var before := Inferences(es[..|es| - 1], problem);
      if last.Handled? && last.r.problem == problem && (before == 0 || !last.r.fromCache) then before + 1 else before
  }

  function Latest(es: seq<Event>, problem: Problem): Option<Result> {
    if es == [] then None
    else if es[|es| - 1].Handled? && es[|es| - 1].r.problem == problem then Some(es[|es| - 1].r)
    else Latest(es[..|es| - 1], problem)
  }

  /** When the problem was first seen, among the results that say when. */
  function FirstSeen(es: seq<Event>, problem: Problem): string {
    if es == [] then ""
    else
      var before, last := FirstSeen(es[..|es| - 1], problem), es[|es| - 1];
      if before == "" && last.Handled? && last.r.problem == problem then last.r.at else before
  }

  /** The latest note per sink, from the first time the problem had a document. */
  function Notes(es: seq<Event>, problem: Problem): map<string, Delivery> {
    if es == [] then map[]
    else
      var front, last := es[..|es| - 1], es[|es| - 1];
      if last.Noted? && last.problem == problem && last.ok && Inferences(front, problem) > 0
      then Notes(front, problem)[last.sink := last.delivery]
      else Notes(front, problem)
  }

  /** The document of a problem is exactly the digest of everything reported and noted about it. */
  ghost predicate Digests(store: Store, es: seq<Event>, problem: Problem) {
    && (problem in store <==> Inferences(es, problem) > 0)
    && (problem in store ==>
          && store[problem].total == Reported(es, problem)
          && store[problem].analyses == Inferences(es, problem)
          && store[problem].firstSeen == FirstSeen(es, problem)
          && Latest(es, problem).Some?
          && store[problem].lastSeen == Latest(es, problem).value.at
          && store[problem].findings == Latest(es, problem).value.findings
          && store[problem].exports == Notes(es, problem))
    && (problem !in store ==> Reported(es, problem) == 0 && Notes(es, problem) == map[] && FirstSeen(es, problem) == "")
  }

  /** The events the stored proposal stems from: what could not be written is missing, and unreadable history is gone. */
  function Retained(es: seq<Event>, problem: Problem): seq<Event> {
    if es == [] then []
    else
      var before, last := Retained(es[..|es| - 1], problem), es[|es| - 1];
      if !Reports(last, problem) || (last.readable && last.writable) then before + [last]
      else if last.writable then [last]
      else before
  }

  /** Whatever could be read or written: the stored proposal is the digest of the events it stems from. */
  lemma {:induction false} DocumentIsTheDigest(es: seq<Event>, problem: Problem)
    ensures Digests(Run(es).store, Retained(es, problem), problem)
  {
    if es != [] {
      DocumentIsTheDigest(es[..|es| - 1], problem);
      StepDigests(Run(es[..|es| - 1]), Retained(es[..|es| - 1], problem), es[|es| - 1], problem);
    }
  }

  lemma StepDigests(s: State, before: seq<Event>, last: Event, problem: Problem)
    requires Digests(s.store, before, problem)
    ensures Reports(last, problem) && last.writable && !last.readable ==> Digests(Step(s, last).store, [last], problem)
    ensures Reports(last, problem) && !last.writable ==> Digests(Step(s, last).store, before, problem)
    ensures !Reports(last, problem) || (last.readable && last.writable) ==> Digests(Step(s, last).store, before + [last], problem)
  {
    assert (before + [last])[..|before|] == before && [last][..0] == [];
  }

  /** With a disk that works that is everything ever reported and noted. */
  lemma {:induction false} EverythingIsRetained(es: seq<Event>, problem: Problem)
    requires DiskWorks(es, problem)
    ensures Retained(es, problem) == es
  {
    if es != [] {
      EverythingIsRetained(es[..|es| - 1], problem);
      assert es == es[..|es| - 1] + [es[|es| - 1]];
    }
  }

  // ---------- idempotency keys ----------

  ghost predicate Ascending(handouts: seq<Handout>, problem: Problem) {
    forall i, j | 0 <= i < j < |handouts| && handouts[i].problem == problem && handouts[j].problem == problem ::
      handouts[i].total < handouts[j].total
  }

  ghost predicate CoveredBy(handouts: seq<Handout>, store: Store, problem: Problem) {
    forall i | 0 <= i < |handouts| && handouts[i].problem == problem ::
      problem in store && handouts[i].total <= store[problem].total
  }

  lemma {:induction false} HandoutsAscend(es: seq<Event>, problem: Problem)
    requires DiskWorks(es, problem) && SomethingNew(es, problem)
    ensures Ascending(Run(es).handouts, problem) && CoveredBy(Run(es).handouts, Run(es).store, problem)
  {
    if es != [] {
      HandoutsAscend(es[..|es| - 1], problem);
    }
  }

  /** While its proposal can be read and written, no other exported record shares an idempotency key with one of a problem's. */
  lemma KeysNeverRepeat(es: seq<Event>, problem: Problem)
    requires DiskWorks(es, problem) && SomethingNew(es, problem)
    ensures var h := Run(es).handouts;
            forall i, j | 0 <= i < j < |h| && (h[i].problem == problem || h[j].problem == problem) ::
              KeyOf(h[i].problem, h[i].total) != KeyOf(h[j].problem, h[j].total)
  {
    HandoutsAscend(es, problem);
    var h := Run(es).handouts;
    forall i, j | 0 <= i < j < |h| && (h[i].problem == problem || h[j].problem == problem)
      ensures KeyOf(h[i].problem, h[i].total) != KeyOf(h[j].problem, h[j].total)
    {
      KeysAreInjective(h[i].problem, h[i].total, h[j].problem, h[j].total);
    }
  }

  /** No two of the records handed to export share an idempotency key. */
  predicate AllKeysDiffer(handouts: seq<Handout>) {
    forall i, j | 0 <= i < j < |handouts| ::
      KeyOf(handouts[i].problem, handouts[i].total) != KeyOf(handouts[j].problem, handouts[j].total)
  }

  ghost predicate EveryDiskWorks(es: seq<Event>) {
    forall problem :: DiskWorks(es, problem) && SomethingNew(es, problem)
  }

  lemma NoKeyEverRepeats(es: seq<Event>)
    requires EveryDiskWorks(es)
    ensures AllKeysDiffer(Run(es).handouts)
  {
    forall i, j | 0 <= i < j < |Run(es).handouts|
      ensures KeyOf(Run(es).handouts[i].problem, Run(es).handouts[i].total)
           != KeyOf(Run(es).handouts[j].problem, Run(es).handouts[j].total)
    {
      KeysNeverRepeat(es, Run(es).handouts[i].problem);
    }
  }

  // ---------- when a key repeats ----------

  /** Occurrences in the results of a problem stored from event `lo` up to event `hi`. */
  function StoredBetween(es: seq<Event>, problem: Problem, lo: nat, hi: nat): nat
    requires hi <= |es|
  {
    if hi <= lo then 0
    else
      var before, e := StoredBetween(es, problem, lo, hi - 1), es[hi - 1];
      if Reports(e, problem) && e.writable then before + e.r.occurrences else before
  }

  /** The last result before event `hi` stored without reading the one before it: what is on disk counts from there. */
  function CountsFrom(es: seq<Event>, problem: Problem, hi: nat): (from: nat)
    requires hi <= |es|
    ensures from <= hi
  {
    if hi == 0 then 0
    else if Reports(es[hi - 1], problem) && es[hi - 1].writable && !es[hi - 1].readable then hi - 1
    else CountsFrom(es, problem, hi - 1)
  }

  /** Where the tally handed out with event `i` counts from. */
  function StartOf(es: seq<Event>, problem: Problem, i: nat): (start: nat)
    requires i < |es|
    ensures start <= i
  {
    if Reports(es[i], problem) && !es[i].readable then i else CountsFrom(es, problem, i)
  }

  function StoredTotal(store: Store, problem: Problem): nat {
    if problem in store then store[problem].total else 0
  }

  lemma {:induction false} StoredTotalCounts(es: seq<Event>, problem: Problem, i: nat)
    requires i <= |es|
    ensures StoredTotal(Run(es[..i]).store, problem) == StoredBetween(es, problem, CountsFrom(es, problem, i), i)
  {
    if i > 0 {
      assert es[..i][..i - 1] == es[..i - 1];
      StoredTotalCounts(es, problem, i - 1);
    }
  }

  lemma {:induction false} BetweenSplits(es: seq<Event>, problem: Problem, lo: nat, mid: nat, hi: nat)
    requires lo <= mid <= hi <= |es|
    ensures StoredBetween(es, problem, lo, hi) == StoredBetween(es, problem, lo, mid) + StoredBetween(es, problem, mid, hi)
  {
    if mid < hi {
      BetweenSplits(es, problem, lo, mid, hi - 1);
    }
  }

  /** The place of event `i`'s record among all those handed to export. */
  function PlaceOf(es: seq<Event>, i: nat): nat
    requires i <= |es|
  {
    |Run(es[..i]).handouts|
  }

  lemma {:induction false} HandoutsStay(es: seq<Event>, i: nat)
    requires i <= |es|
    ensures Run(es[..i]).handouts <= Run(es).handouts
  {
    if i < |es| {
      HandoutsStay(es[..|es| - 1], i);
      assert es[..|es| - 1][..i] == es[..i];
    } else {
      assert es[..i] == es;
    }
  }

  /** What is handed out with an event is what has been stored since its tally started, and its own occurrences. */
  lemma HandoutCounts(es: seq<Event>, i: nat)
    requires i < |es| && es[i].Handled?
    ensures var h, problem := Run(es).handouts, es[i].r.problem;
            && PlaceOf(es, i) < |h|
            && h[PlaceOf(es, i)]
               == Handout(problem, StoredBetween(es, problem, StartOf(es, problem, i), i) + es[i].r.occurrences)
  {
    StoredTotalCounts(es, es[i].r.problem, i);
    HandoutsStay(es, i + 1);
    assert es[..i + 1][..i] == es[..i];
  }

  /**
    Two records of a problem are exported under one key exactly when, both tallies counting from one
    start, the earlier was not stored and stands for as many occurrences as were stored between them
    and the later adds; or when, an unreadable proposal having been replaced, the two tallies happen
    to come out the same.
   */
  lemma KeyRepeatsExactlyWhen(es: seq<Event>, i: nat, j: nat)
    requires i < j < |es| && es[i].Handled? && es[j].Handled? && es[i].r.problem == es[j].r.problem
    requires es[j].r.occurrences > 0
    ensures var problem := es[i].r.problem;
            var h, m, n := Run(es).handouts, PlaceOf(es, i), PlaceOf(es, j);
            var start, start' := StartOf(es, problem, i), StartOf(es, problem, j);
            && m < |h| && n < |h|
            && (start == start' ==>
                  (KeyOf(h[m].problem, h[m].total) == KeyOf(h[n].problem, h[n].total) <==>
                   !es[i].writable && es[i].r.occurrences == StoredBetween(es, problem, i + 1, j) + es[j].r.occurrences))
            && (start != start' ==>
                  (KeyOf(h[m].problem, h[m].total) == KeyOf(h[n].problem, h[n].total) <==>
                   StoredBetween(es, problem, start, i) + es[i].r.occurrences
                   == StoredBetween(es, problem, start', j) + es[j].r.occurrences))
  {
    var problem := es[i].r.problem;
    HandoutCounts(es, i);
    HandoutCounts(es, j);
    var h, m, n := Run(es).handouts, PlaceOf(es, i), PlaceOf(es, j);
    KeysAreInjective(problem, h[m].total, problem, h[n].total);
    if StartOf(es, problem, i) == StartOf(es, problem, j) {
      BetweenSplits(es, problem, StartOf(es, problem, i), i, j);
      BetweenSplits(es, problem, i, i + 1, j);
    }
  }

  /** Records of different problems never share a key. */
  lemma OtherProblemsHaveOtherKeys(es: seq<Event>, i: nat, j: nat)
    requires i < |es| && j < |es| && es[i].Handled? && es[j].Handled? && es[i].r.problem != es[j].r.problem
    ensures var h, m, n := Run(es).handouts, PlaceOf(es, i), PlaceOf(es, j);
            m < |h| && n < |h| && KeyOf(h[m].problem, h[m].total) != KeyOf(h[n].problem, h[n].total)
  {
    HandoutCounts(es, i);
    HandoutCounts(es, j);
    var h, m, n := Run(es).handouts, PlaceOf(es, i), PlaceOf(es, j);
    KeysAreInjective(h[m].problem, h[m].total, h[n].problem, h[n].total);
  }

  /** The failing case: a problem reported once, not stored, and reported once again. */
  lemma UnstoredProposalRepeatsItsKey()
    ensures var r := Result("p", 1, false, "t", "f");
            var h := Run([Handled(r, true, false)] + [Handled(r, true, true)]).handouts;
            |h| == 2 && KeyOf(h[0].problem, h[0].total) == KeyOf(h[1].problem, h[1].total)
  {
    var r := Result("p", 1, false, "t", "f");
    var first, second := Handled(r, true, false), Handled(r, true, true);
    assert [first][..0] == [] && ([first] + [second])[..1] == [first];
    assert Run([first]) == State(map[], [Handout("p", 1)]);
  }

  /** Another: every write succeeds, but a stored proposal cannot be read back and is replaced. */
  lemma UnreadableProposalRepeatsItsKey()
    ensures var r := Result("p", 1, false, "t", "f");
            var h := Run([Handled(r, true, true)] + [Handled(r, false, true)]).handouts;
            |h| == 2 && KeyOf(h[0].problem, h[0].total) == KeyOf(h[1].problem, h[1].total)
  {
    var r := Result("p", 1, false, "t", "f");
    var first, second := Handled(r, true, true), Handled(r, false, true);
    assert [first][..0] == [] && ([first] + [second])[..1] == [first];
    assert Run([first]).handouts == [Handout("p", 1)];
  }
}
