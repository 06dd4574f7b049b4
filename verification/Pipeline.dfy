/** From analysed errors to event sinks: the keys a sink sees come from the occurrence totals. */
module Pipeline {
  import opened Basics
  import opened Records
  import opened ExporterModel
  import opened ExporterRuns
  import Analysis = AnalyzerModel
  import Accounting
  import Remediation = RemediationModel

  /** A proposal handed to export carries its problem and the total its document was given. */
  predicate Describes(p: Proposal, h: Remediation.Handout) {
    && ProblemKey in p.metadata && p.metadata[ProblemKey] == Text(h.problem)
    && TotalOccurrences in p.metadata && p.metadata[TotalOccurrences] == Count(h.total)
  }

  /** The proposals submitted for a sink, in order. */
  function SubmittedTo(es: seq<Event>, sink: string): seq<Proposal> {
    if es == [] then []
    else
      var before, e := SubmittedTo(es[..|es| - 1], sink), es[|es| - 1];
      if e.Submitted? && e.sink == sink then before + [e.p] else before
  }

  /** Export is handed each proposal once, as it is made; those of the run are the first so many. */
  predicate HandsOn(es: seq<Event>, sink: string, handouts: seq<Remediation.Handout>) {
    && |SubmittedTo(es, sink)| <= |handouts|
    && forall k | 0 <= k < |SubmittedTo(es, sink)| :: Describes(SubmittedTo(es, sink)[k], handouts[k])
  }

  lemma {:induction false} SubmittedGrows(es: seq<Event>, sink: string, i: nat)
    requires i <= |es|
    ensures SubmittedTo(es[..i], sink) <= SubmittedTo(es, sink)
  {
    if i < |es| {
      SubmittedGrows(es[..|es| - 1], sink, i);
      assert es[..|es| - 1][..i] == es[..i];
    } else {
      assert es[..i] == es;
    }
  }

  /** Where a submission's proposal stands among those for its sink. */
  lemma PlaceOfSubmission(es: seq<Event>, sink: string, i: nat)
    requires i < |es| && es[i].Submitted? && es[i].sink == sink
    ensures var k := |SubmittedTo(es[..i], sink)|;
            && |SubmittedTo(es[..i + 1], sink)| == k + 1 <= |SubmittedTo(es, sink)|
            && SubmittedTo(es, sink)[k] == es[i].p
  {
    assert es[..i + 1][..i] == es[..i];
    SubmittedGrows(es, sink, i + 1);
  }

  lemma LaterSubmissionStandsLater(es: seq<Event>, sink: string, i: nat, j: nat)
    requires i < j < |es| && es[i].Submitted? && es[i].sink == sink
    ensures |SubmittedTo(es[..i], sink)| < |SubmittedTo(es[..j], sink)|
  {
    PlaceOfSubmission(es, sink, i);
    assert es[..j][..i + 1] == es[..i + 1];
    SubmittedGrows(es[..j], sink, i + 1);
  }

  /** The key filed with a proposal is made of its problem and total, at every level and consent. */
  lemma KeyOfDescribed(c: Config, e: Event, h: Remediation.Handout)
    requires e.Submitted? && Describes(e.p, h)
    ensures KeyFiled(c, e) == Text(KeyOf(h.problem, h.total))
  {
    var level := EffectiveLevel(LevelFor(c, e.sink), Permits(e.consent));
    PayloadIsShaped(e.p, level, c.node);
    assert Visible(TotalOccurrences, level, c.node);
    assert Get(BuildPayload(e.p, level, c.node), TotalOccurrences) == Count(h.total);
  }

  lemma DistinctHandoutsAreFiledDistinct(c: Config, es: seq<Event>, sink: string, handouts: seq<Remediation.Handout>)
    requires HandsOn(es, sink, handouts) && Remediation.AllKeysDiffer(handouts)
    ensures KeysDiffer(c, es, sink)
  {
    forall i, j | 0 <= i < j < |es| && Files(es[i], sink) && Files(es[j], sink)
      ensures KeyFiled(c, es[i]) != KeyFiled(c, es[j])
    {
      PlaceOfSubmission(es, sink, i);
      PlaceOfSubmission(es, sink, j);
      LaterSubmissionStandsLater(es, sink, i, j);
      KeyOfDescribed(c, es[i], handouts[|SubmittedTo(es[..i], sink)|]);
      KeyOfDescribed(c, es[j], handouts[|SubmittedTo(es[..j], sink)|]);
    }
  }

  /**
    End to end: while proposals can be stored, of everything a sink ever receives two deliveries with
    one key are the same record with the same payload, from the first analysed error to the last retry.
   */
  lemma SinksCanTellRecordsApart(c: Config, es: seq<Event>, sink: string, a: Receipt, b: Receipt,
                                 analyzer: Analysis.Config, errors: seq<Analysis.Event>, digest: Analysis.Signature -> string)
    requires RestartsAdvance(es)
    requires HandsOn(es, sink, Remediation.Run(Accounting.Results(digest, Analysis.Run(analyzer, Analysis.START, errors).emitted)).handouts)
    requires a in Run(c, es).receipts && b in Run(c, es).receipts && a.sink == sink && b.sink == sink
    ensures a.key == b.key ==> a == b
  {
    var h := Remediation.Run(Accounting.Results(digest, Analysis.Run(analyzer, Analysis.START, errors).emitted)).handouts;
    Accounting.EmissionsGetDistinctKeys(analyzer, errors, digest);
    DistinctHandoutsAreFiledDistinct(c, es, sink, h);
    KeysIdentifyRecords(c, es, sink, a, b);
  }

  /** The same for any history of results and notes in which every problem's proposal can be read and written. */
  lemma StoredProposalsAreToldApart(c: Config, es: seq<Event>, sink: string, a: Receipt, b: Receipt, history: seq<Remediation.Event>)
    requires RestartsAdvance(es) && Remediation.EveryDiskWorks(history)
    requires HandsOn(es, sink, Remediation.Run(history).handouts)
    requires a in Run(c, es).receipts && b in Run(c, es).receipts && a.sink == sink && b.sink == sink
    ensures a.key == b.key ==> a == b
  {
    Remediation.NoKeyEverRepeats(history);
    DistinctHandoutsAreFiledDistinct(c, es, sink, Remediation.Run(history).handouts);
    KeysIdentifyRecords(c, es, sink, a, b);
  }
}
