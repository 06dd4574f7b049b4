/** The component that stores proposals and keeps them up to date in place. */
module Proposals {
  import opened Basics
  import opened RemediationModel

  class RemediationGenerator {
    var store: map<Problem, Document>
    var written: nat
    var updated: nat
    var storageFailures: nat
    /** What has happened since the directory was empty, and what export was handed. */
    ghost var history: seq<Event>
    ghost var handouts: seq<Handout>

    /** A reachable store; and of the proposals made, each was written first, an update, or not stored. */
    ghost predicate Valid()
      reads this
    {
      && State(store, handouts) == Run(history)
      && written == |store| && written + updated + storageFailures == |handouts|
    }

    constructor ()
      ensures Valid() && history == []
    {
      store, written, updated, storageFailures := map[], 0, 0, 0;
      history, handouts := [], [];
    }

    /** Fold a recurrence into the proposal already on disk; an unreadable one is replaced. */
    method MergeWithExisting(proposal: Document, r: Result, readable: bool) returns (merged: Document)
      requires r.problem in store
      ensures merged == if readable then Merge(store[r.problem], proposal, r.fromCache) else proposal
    {
      merged := proposal;
      if !readable {
        return;
      }
      var previous := store[r.problem];
      merged := merged.(firstSeen := if previous.firstSeen == "" then merged.firstSeen else previous.firstSeen);
      merged := merged.(total := previous.total + proposal.total);
      merged := merged.(analyses := previous.analyses + if r.fromCache then 0 else 1);
      if previous.exports != map[] {
        merged := merged.(exports := previous.exports);
      }
    }

    method Write(problem: Problem, proposal: Document, isUpdate: bool, writable: bool) returns (stored: bool)
      requires isUpdate <==> problem in store
      modifies this`store, this`written, this`updated, this`storageFailures
      ensures stored == writable && store == if writable then old(store)[problem := proposal] else old(store)
      ensures written - |store| == old(written) - old(|store|)
      ensures written + updated + storageFailures == old(written + updated + storageFailures) + 1
    {
      if !writable {
        storageFailures := storageFailures + 1;
        return false;
      }
      ghost var keys := store.Keys;
      store := store[problem := proposal];
      assert store.Keys == keys + {problem};
      if isUpdate {
        updated := updated + 1;
      } else {
        written := written + 1;
      }
      return true;
    }

    /** The proposal goes to export whether or not it could be stored. */
    method HandleResult(r: Result, readable: bool, writable: bool) returns (proposal: Document)
      requires Valid()
      modifies this
      ensures Valid() && history == old(history) + [Handled(r, readable, writable)]
      ensures proposal == Proposed(old(store), r, readable)
      ensures handouts == old(handouts) + [Handout(r.problem, proposal.total)]
    {
      proposal := Generate(r);
      var isUpdate := r.problem in store;
      if isUpdate {
        proposal := MergeWithExisting(proposal, r, readable);
      }
      assert proposal == Proposed(store, r, readable);
      var _ := Write(r.problem, proposal, isUpdate, writable);
      handouts := handouts + [Handout(r.problem, proposal.total)];
      history := history + [Handled(r, readable, writable)];
      assert history[..|history| - 1] == old(history);
    }

    /** Note where a proposal was sent, if it is still there to be rewritten. */
    method RecordDelivery(problem: Problem, sink: string, delivery: Delivery, ok: bool)
      requires Valid()
      modifies this
      ensures Valid() && history == old(history) + [Noted(problem, sink, delivery, ok)]
    {
      history := history + [Noted(problem, sink, delivery, ok)];
      assert history[..|history| - 1] == old(history);
      if problem !in store || !ok {
        return;
      }
      var document := store[problem];
      ghost var keys := store.Keys;
      store := store[problem := document.(exports := document.exports[sink := delivery])];
      assert store.Keys == keys;
    }
  }
}
