/** How long a failing record is retried: jittered backoff against the age limit. */
module SpoolBackoff {
  import opened Basics
  import opened FileNames
  import opened Records
  import opened SpoolModel
  import opened SpoolRuns
  import opened SpoolOrder

  predicate Jitter(j: real) {
    0.0 <= j < 1.0
  }

  lemma {:induction false} Pow2Grows(k: nat)
    ensures Pow2(k) >= 1 && Pow2(k + 1) == 2 * Pow2(k)
  {
    if k > 0 {
      Pow2Grows(k - 1);
    }
  }

  lemma NominalIsNonNegative(k: nat, base: real, maximum: real)
    requires base >= 0.0 && maximum >= 0.0
    ensures Nominal(k, base, maximum) >= 0.0
  {
    Pow2Grows(if k == 0 then 0 else k - 1);
  }

  lemma ProductIsNonNegative(a: real, b: real)
    requires a >= 0.0 && b >= 0.0
    ensures a * b >= 0.0
  {
  }

  lemma Bracket(n: real, j: real)
    requires n >= 0.0 && Jitter(j)
    ensures n / 2.0 <= Jittered(n, j) <= n
  {
    ProductIsNonNegative(n, j);
    ProductIsNonNegative(n, 1.0 - j);
    assert n * (1.0 - j) == n - n * j;
    assert n * (0.5 + j * 0.5) == n * 0.5 + (n * j) * 0.5;
  }

  lemma DelayIsBracketed(k: nat, base: real, maximum: real, j: real)
    requires base >= 0.0 && maximum >= 0.0 && Jitter(j)
    ensures Nominal(k, base, maximum) / 2.0 <= BackoffDelay(k, base, maximum, j) <= Nominal(k, base, maximum)
  {
    NominalIsNonNegative(k, base, maximum);
    Bracket(Nominal(k, base, maximum), j);
  }

  /** Doubling, until the cap. */
  lemma NominalDoubles(k: nat, base: real, maximum: real)
    requires k >= 1 && base > 0.0 && maximum > 0.0
    ensures 0.0 < Nominal(k, base, maximum) && 0.0 < Nominal(k + 1, base, maximum)
    ensures if Uncapped(k, base, maximum)
            then Nominal(k + 1, base, maximum) == 2.0 * Nominal(k, base, maximum)
            else Nominal(k + 1, base, maximum) < 2.0 * Nominal(k, base, maximum)
  {
    Pow2Grows(k - 1);
    var p := Pow2(k - 1) as real;
    assert Pow2(k) as real == 2.0 * p;
    assert base * (2.0 * p) == 2.0 * (base * p);
    assert base * p > 0.0;
  }

  predicate Uncapped(k: nat, base: real, maximum: real) {
    base * Pow2(k) as real <= maximum
  }

  /** A delay drawn from `n` is never longer than one drawn from `m`. */
  ghost predicate NeverShrinks(n: real, m: real) {
    forall i, j | Jitter(i) && Jitter(j) :: Jittered(n, i) <= Jittered(m, j)
  }

  lemma ShrinksExactlyWhen(n: real, m: real)
    requires n > 0.0 && m > 0.0
    ensures NeverShrinks(n, m) <==> m >= 2.0 * n
  {
    if m >= 2.0 * n {
      forall i, j | Jitter(i) && Jitter(j) ensures Jittered(n, i) <= Jittered(m, j) {
        Bracket(n, i);
        Bracket(m, j);
      }
    } else {
      var i := ShrinkingJitter(n, m);
      assert Jitter(i) && Jitter(0.0) && Jittered(n, i) > Jittered(m, 0.0);
    }
  }

  /**
    Whatever the jitter, the next delay is no shorter than this one - exactly as
    long as the next one has not hit the cap.
   */
  lemma DelaysGrowUntilCapped(k: nat, base: real, maximum: real)
    requires k >= 1 && base > 0.0 && maximum > 0.0
    ensures NeverShrinks(Nominal(k, base, maximum), Nominal(k + 1, base, maximum)) <==> Uncapped(k, base, maximum)
  {
    NominalDoubles(k, base, maximum);
    ShrinksExactlyWhen(Nominal(k, base, maximum), Nominal(k + 1, base, maximum));
  }

  lemma ShrinkingJitter(n: real, m: real) returns (i: real)
    requires 0.0 < m < 2.0 * n
    ensures Jitter(i) && Jittered(n, i) > Jittered(m, 0.0)
  {
    i := m / (2.0 * n);
    assert n * i == m / 2.0;
    assert n * (0.5 + i * 0.5) == n * 0.5 + n * i * 0.5;
  }

  /** The unjittered delays of the first k attempts together. */
  function Backoffs(k: nat, base: real): real {
    if k == 0 then 0.0 else Backoffs(k - 1, base) + Nominal(k, base, MAX_BACKOFF)
  }

  /** A record's schedule reflects every failure it has been through. */
  ghost predicate Timed(c: Config, doc: Document) {
    doc.attempts > 0 ==>
      && doc.firstQueued.Some?
      && 2.0 * (doc.nextAttempt - doc.firstQueued.value) >= Backoffs(doc.attempts, c.baseBackoff)
      && Backoffs(doc.attempts - 1, c.baseBackoff) <= 2.0 * c.maxAge
  }

  lemma RetryIsTimed(c: Config, doc: Document, now: real, jitter: real)
    requires c.baseBackoff >= 0.0 && Jitter(jitter) && Timed(c, doc)
    requires doc.firstQueued.Some? && doc.firstQueued.value <= now && doc.nextAttempt <= now
    requires !Expired(c, doc, now)
    ensures Timed(c, Retry(c, doc, now, jitter))
  {
    DelayIsBracketed(doc.attempts + 1, c.baseBackoff, MAX_BACKOFF, jitter);
  }

  predicate QueuedBy(doc: Document, t: real) {
    doc.firstQueued.Some? && doc.firstQueued.value <= t
  }

  ghost predicate Scheduled(c: Config, l: Line, t: real) {
    && (forall f | f in l.spool.dir :: Timed(c, f.doc) && QueuedBy(f.doc, t))
    && (forall r | r in l.flight :: Timed(c, r.doc) && QueuedBy(r.doc, t) && r.doc.nextAttempt <= t)
  }

  ghost predicate JittersInRange(es: seq<Event>) {
    forall i | 0 <= i < |es| && es[i].Failed? :: Jitter(es[i].jitter)
  }

  lemma PutIsScheduled(c: Config, l: Line, e: Event, t: real)
    requires Sorted(l.spool.dir) && Scheduled(c, l, t) && t <= e.now && Puts(e)
    ensures Scheduled(c, Step(c, l, e), e.now)
  {
    PutLists(c, l, e);
    forall g | g in Step(c, l, e).spool.dir ensures Timed(c, g.doc) && QueuedBy(g.doc, e.now) {
      assert g in l.spool.dir || g == NewFile(l.spool, e.sink, e.payload, e.bytes, e.now);
    }
  }

  lemma FailureIsScheduled(c: Config, l: Line, e: Event, t: real)
    requires Sorted(l.spool.dir) && Scheduled(c, l, t) && c.baseBackoff >= 0.0
    requires l.flight != [] && e.Failed? && t <= e.now && Jitter(e.jitter)
    ensures Scheduled(c, Step(c, l, e), e.now)
  {
    var r := l.flight[0];
    assert r in l.flight;
    UnlinkKeepsOrder(l.spool.dir, r.name);
    WriteKeepsOrder(l.spool.dir, File(r.name, Retry(c, r.doc, e.now, e.jitter), e.bytes));
    if !Expired(c, r.doc, e.now) {
      RetryIsTimed(c, r.doc, e.now, e.jitter);
    }
  }

  lemma StepIsScheduled(c: Config, l: Line, e: Event, t: real)
    requires Sorted(l.spool.dir) && Scheduled(c, l, t) && c.baseBackoff >= 0.0 && t <= e.now
    requires e.Failed? ==> Jitter(e.jitter)
    ensures Scheduled(c, Step(c, l, e), e.now)
  {
    match e
    case Submitted(_, _, _, _, disk) =>
      if disk == Stored {
        PutIsScheduled(c, l, e, t);
      }
    case Listed(now) => DueComesFromDir(l.spool.dir, now);
    case Delivered(_) =>
      if l.flight != [] {
        UnlinkKeepsOrder(l.spool.dir, l.flight[0].name);
      }
    case Failed(_, _, _, _) =>
      if l.flight != [] {
        FailureIsScheduled(c, l, e, t);
      }
    case Purged(now) => FreshKeepsOrder(c, l.spool.dir, now);
    case Restarted(_) =>
  }

  lemma {:induction false} RunIsScheduled(c: Config, es: seq<Event>, t: real)
    requires Monotone(es) && JittersInRange(es) && c.baseBackoff >= 0.0
    requires es != [] ==> t == es[|es| - 1].now
    ensures Scheduled(c, Run(c, es), t)
  {
    if es != [] {
      var front := es[..|es| - 1];
      var s := if front == [] then t else front[|front| - 1].now;
      RunIsSorted(c, front);
      RunIsScheduled(c, front, s);
      StepIsScheduled(c, Run(c, front), es[|es| - 1], s);
    }
  }

  /**
    Attempts are bounded. A record that has failed k times without expiring has
    waited out k-1 delays, each at least half its nominal length, within the
    age limit.
   */
  lemma AttemptsAreBounded(c: Config, es: seq<Event>, f: File)
    requires Monotone(es) && JittersInRange(es) && c.baseBackoff >= 0.0
    requires f in Run(c, es).spool.dir && f.doc.attempts > 0
    ensures Backoffs(f.doc.attempts - 1, c.baseBackoff) <= 2.0 * c.maxAge
  {
    RunIsScheduled(c, es, if es == [] then 0.0 else es[|es| - 1].now);
  }

  const DEFAULT_MAX_AGE := 604800.0
  const DEFAULT_BASE := 30.0

  lemma {:induction false} BackoffsGrow(j: nat, k: nat, base: real)
    requires j <= k && base >= 0.0
    ensures Backoffs(j, base) <= Backoffs(k, base)
    decreases k
  {
    if j < k {
      BackoffsGrow(j, k - 1, base);
      NominalIsNonNegative(k, base, MAX_BACKOFF);
    }
  }

  lemma {:induction false} Pow2FromSeven(k: nat)
    ensures Pow2(k + 7) >= 128
  {
    if k > 0 {
      Pow2FromSeven(k - 1);
    } else {
      assert Pow2(7) == 128;
    }
  }

  lemma {:induction false} DefaultBackoffs(k: nat)
    ensures Backoffs(k + 7, DEFAULT_BASE) == 3810.0 + 3600.0 * k as real
  {
    if k == 0 {
      assert Nominal(1, 30.0, 3600.0) == 30.0;
      assert Nominal(2, 30.0, 3600.0) == 60.0;
      assert Nominal(3, 30.0, 3600.0) == 120.0;
      assert Nominal(4, 30.0, 3600.0) == 240.0;
      assert Nominal(5, 30.0, 3600.0) == 480.0;
      assert Nominal(6, 30.0, 3600.0) == 960.0;
      assert Nominal(7, 30.0, 3600.0) == 1920.0;
      assert Backoffs(3, 30.0) == 210.0;
      assert Backoffs(5, 30.0) == 930.0;
    } else {
      DefaultBackoffs(k - 1);
      Pow2FromSeven(k - 1);
    }
  }

  lemma DefaultBackoffsOutrunTheAge(k: nat)
    requires Backoffs(k, DEFAULT_BASE) <= 2.0 * DEFAULT_MAX_AGE
    ensures k <= 341
  {
    if k >= 342 {
      BackoffsGrow(342, k, DEFAULT_BASE);
      DefaultBackoffs(335);
    }
  }

  /** With the shipped settings no record is tried more than 342 times. */
  lemma DefaultAttemptLimit(c: Config, es: seq<Event>, f: File)
    requires Monotone(es) && JittersInRange(es)
    requires c.baseBackoff == DEFAULT_BASE && c.maxAge == DEFAULT_MAX_AGE
    requires f in Run(c, es).spool.dir
    ensures f.doc.attempts <= 342
  {
    if f.doc.attempts > 0 {
      AttemptsAreBounded(c, es, f);
      DefaultBackoffsOutrunTheAge(f.doc.attempts - 1);
    }
  }
}
