/** What discovery guarantees over whole runs of polls. */
module RegistryRuns {
  import opened Basics
  import opened RegistryModel

  // ---------- merging keeps every entry under its own identity ----------

  /** Every entry names a url and, read back, gives the identity it is stored under. */
  predicate Keyed(merged: Merged) {
    forall id | id in merged :: Usable(merged[id].ref.url) && IdOf(merged[id].ref) == id
  }

  lemma WithAgreementKeepsKeyed(merged: Merged, a: Agreement)
    requires Keyed(merged)
    ensures Keyed(WithAgreement(merged, a))
  {
  }

  lemma WithDefinitionKeepsKeyed(merged: Merged, d: Definition)
    requires Keyed(merged)
    ensures Keyed(WithDefinition(merged, d))
  {
  }

  lemma WithConfigKeepsKeyed(merged: Merged, c: Entry)
    requires Keyed(merged)
    ensures Keyed(WithConfig(merged, c))
  {
  }

  lemma {:induction false} AgreementsKeepKeyed(agreements: seq<Agreement>)
    ensures Keyed(MergeAgreements(agreements))
  {
    if agreements != [] {
      AgreementsKeepKeyed(agreements[..|agreements| - 1]);
      WithAgreementKeepsKeyed(MergeAgreements(agreements[..|agreements| - 1]), agreements[|agreements| - 1]);
    }
  }

  lemma {:induction false} DefinitionsKeepKeyed(merged: Merged, definitions: seq<Definition>)
    requires Keyed(merged)
    ensures Keyed(MergeDefinitions(merged, definitions))
  {
    if definitions != [] {
      DefinitionsKeepKeyed(merged, definitions[..|definitions| - 1]);
      WithDefinitionKeepsKeyed(MergeDefinitions(merged, definitions[..|definitions| - 1]), definitions[|definitions| - 1]);
    }
  }

  lemma {:induction false} ConfigsKeepKeyed(merged: Merged, configs: seq<Entry>)
    requires Keyed(merged)
    ensures Keyed(MergeConfigs(merged, configs))
  {
    if configs != [] {
      ConfigsKeepKeyed(merged, configs[..|configs| - 1]);
      WithConfigKeepsKeyed(MergeConfigs(merged, configs[..|configs| - 1]), configs[|configs| - 1]);
    }
  }

  /** However incomplete the sources are, a merged entry leads back to the identity it was merged under. */
  lemma MergedEntriesKeepTheirIdentity(r: Response)
    ensures Keyed(Merge(r))
  {
    AgreementsKeepKeyed(r.agreements);
    DefinitionsKeepKeyed(MergeAgreements(r.agreements), r.definitions);
    ConfigsKeepKeyed(MergeDefinitions(MergeAgreements(r.agreements), r.definitions), r.configs);
  }

  // ---------- who is listed, who is active, and whose opt-in counts ----------

  /** A missing part reads as the empty text. */
  predicate Reads(text: Option<string>, part: string) {
    text == Some(part) || (text.None? && part == "")
  }

  predicate Absent(text: Option<string>) {
    text.None? || text == Some("")
  }

  predicate Names(r: Ref, id: Id) {
    Reads(r.org, id.org) && Reads(r.url, id.url) && Reads(r.version, id.version) && Reads(r.arch, id.arch)
  }

  /** The agreement is in force and names this workload. */
  predicate AgreesOn(a: Agreement, id: Id) {
    !a.terminated && id.url != "" && Names(a.workload, id)
  }

  /** A definition may name its url and organization in either of two ways. */
  predicate Defines(d: Definition, id: Id) {
    && id.url != "" && (d.specRef == Some(id.url) || (Absent(d.specRef) && d.url == Some(id.url)))
    && (if Absent(d.organization) then Reads(d.org, id.org) else d.organization == Some(id.org))
    && Reads(d.version, id.version) && Reads(d.arch, id.arch)
  }

  predicate Configures(c: Entry, id: Id) {
    id.url != "" && Names(c.ref, id)
  }

  predicate ByAgreement(agreements: seq<Agreement>, id: Id) {
    exists a | a in agreements :: AgreesOn(a, id)
  }

  predicate ByDefinition(definitions: seq<Definition>, id: Id) {
    exists d | d in definitions :: Defines(d, id)
  }

  predicate ByConfig(configs: seq<Entry>, id: Id) {
    exists c | c in configs :: Configures(c, id)
  }

  /** The ids of the agreements in force for a workload, in order. */
  function IdsFor(agreements: seq<Agreement>, id: Id): seq<string> {
    if agreements == [] then []
    else
      var before, a := IdsFor(agreements[..|agreements| - 1], id), agreements[|agreements| - 1];
      if AgreesOn(a, id) then before + [a.agreementId] else before
  }

  lemma AgreementNames(a: Agreement, id: Id)
    ensures Active(a) && IdOf(a.workload) == id <==> AgreesOn(a, id)
  {
  }

  lemma DefinitionNames(d: Definition, id: Id)
    ensures Usable(DefinitionUrl(d)) && DefinitionId(d) == id <==> Defines(d, id)
  {
  }

  lemma ConfigNames(c: Entry, id: Id)
    ensures Usable(c.ref.url) && IdOf(c.ref) == id <==> Configures(c, id)
  {
  }

  lemma {:induction false} AgreementsList(agreements: seq<Agreement>, id: Id)
    ensures id in MergeAgreements(agreements) <==> ByAgreement(agreements, id)
    ensures id in IndexOf(agreements) <==> ByAgreement(agreements, id)
    ensures AgreementsOf(IndexOf(agreements), id) == IdsFor(agreements, id)
    ensures IdsFor(agreements, id) != [] <==> ByAgreement(agreements, id)
    ensures id in MergeAgreements(agreements) ==> MergeAgreements(agreements)[id].deployment == None
  {
    if agreements != [] {
      var front, last := agreements[..|agreements| - 1], agreements[|agreements| - 1];
      AgreementsList(front, id);
      AgreementNames(last, id);
      assert agreements == front + [last];
    }
  }

  /** The last definition of a workload, by what it deploys. */
  function LastDefined(definitions: seq<Definition>, id: Id): Option<Deployment> {
    if definitions == [] then None
    else
      var d := definitions[|definitions| - 1];
      if Defines(d, id) then Some(d.deployment)
      else LastDefined(definitions[..|definitions| - 1], id)
  }

  /** The last config of a workload that says anything about its deployment. */
  function LastConfigured(configs: seq<Entry>, id: Id): Option<Deployment> {
    if configs == [] then None
    else
      var c := configs[|configs| - 1];
      if Configures(c, id) && c.deployment.Some? then c.deployment
      else LastConfigured(configs[..|configs| - 1], id)
  }

  /** A config's word counts before a definition's. */
  function Preferred(r: Response, id: Id): Option<Deployment> {
    if LastConfigured(r.configs, id).Some? then LastConfigured(r.configs, id) else LastDefined(r.definitions, id)
  }

  function DeploymentIn(merged: Merged, id: Id): Option<Deployment> {
    if id in merged then merged[id].deployment else None
  }

  lemma {:induction false} DefinitionsList(merged: Merged, definitions: seq<Definition>, id: Id)
    ensures var m := MergeDefinitions(merged, definitions);
            && (id in m <==> id in merged || ByDefinition(definitions, id))
            && DeploymentIn(m, id) == Either(LastDefined(definitions, id), DeploymentIn(merged, id))
  {
    if definitions != [] {
      var front, last := definitions[..|definitions| - 1], definitions[|definitions| - 1];
      DefinitionsList(merged, front, id);
      DefinitionNames(last, id);
      assert definitions == front + [last];
    }
  }

  lemma {:induction false} ConfigsList(merged: Merged, configs: seq<Entry>, id: Id)
    ensures var m := MergeConfigs(merged, configs);
            && (id in m <==> id in merged || ByConfig(configs, id))
            && DeploymentIn(m, id) == Either(LastConfigured(configs, id), DeploymentIn(merged, id))
  {
    if configs != [] {
      var front, last := configs[..|configs| - 1], configs[|configs| - 1];
      ConfigsList(merged, front, id);
      ConfigNames(last, id);
      assert configs == front + [last];
    }
  }

  /**
   * A workload is listed exactly when one of the three sources names it, and its opt-in is the last
   * config's that carries one, or else the last definition's; an agreement alone carries none.
   */
  lemma MergedSaysWhatTheSourcesSay(r: Response, id: Id)
    ensures id in Merge(r) <==> ByAgreement(r.agreements, id) || ByDefinition(r.definitions, id) || ByConfig(r.configs, id)
    ensures DeploymentIn(Merge(r), id) == Preferred(r, id)
    ensures AgreementsOf(IndexOf(r.agreements), id) == IdsFor(r.agreements, id)
    ensures IdsFor(r.agreements, id) != [] <==> ByAgreement(r.agreements, id)
  {
    AgreementsList(r.agreements, id);
    DefinitionsList(MergeAgreements(r.agreements), r.definitions, id);
    ConfigsList(MergeDefinitions(MergeAgreements(r.agreements), r.definitions), r.configs, id);
  }

  predicate ListedIn(r: Response, id: Id) {
    ByAgreement(r.agreements, id) || ByDefinition(r.definitions, id) || ByConfig(r.configs, id)
  }

  // ---------- discovery converges ----------

  /** The state a response settles a workload in. */
  function Settled(r: Response, id: Id): WorkloadState {
    if ByAgreement(r.agreements, id) then Running else if ListedIn(r, id) then Registered else Removed
  }

  /** One successful poll settles every workload, except one that ran and is now listed without an agreement. */
  lemma PollSettlesExactlyWhen(n: Node, r: Response, unreadable: set<string>, id: Id)
    ensures var n' := Poll(n, Some(r), unreadable);
            && (id in n'.workloads <==> id in n.workloads || ListedIn(r, id))
            && (id in n'.workloads ==>
                  if StateOf(n.workloads, id) == Some(Running) && Settled(r, id) == Registered
                  then n'.workloads[id].state == Stopped
                  else n'.workloads[id].state == Settled(r, id))
  {
    MergedSaysWhatTheSourcesSay(r, id);
  }

  /** A listed workload is shown with its agreements in force, and with the opt-in it last got, if it got one. */
  lemma PollReportsWhatTheSourcesSay(n: Node, r: Response, unreadable: set<string>, id: Id)
    requires ListedIn(r, id)
    ensures var n' := Poll(n, Some(r), unreadable);
            var deployment := Preferred(r, id);
            && id in n'.workloads && n'.workloads[id].agreements == IdsFor(r.agreements, id)
            && n'.workloads[id].monitoring
               == if deployment.Some? && deployment.value.Deployment? then deployment.value.optIn else Monitoring(false, [], false)
  {
    MergedSaysWhatTheSourcesSay(r, id);
  }

  /** Two polls with the same answer settle everything, from any state at all. */
  lemma TwoPollsConverge(n: Node, r: Response, u1: set<string>, u2: set<string>)
    ensures var n2 := Poll(Poll(n, Some(r), u1), Some(r), u2);
            && (forall id | id in n2.workloads :: n2.workloads[id].state == Settled(r, id))
            && (forall id | ListedIn(r, id) :: id in n2.workloads)
  {
    var n1 := Poll(n, Some(r), u1);
    var n2 := Poll(n1, Some(r), u2);
    forall id | id in n2.workloads || ListedIn(r, id)
      ensures id in n2.workloads && n2.workloads[id].state == Settled(r, id)
    {
      PollSettlesExactlyWhen(n, r, u1, id);
      PollSettlesExactlyWhen(n1, r, u2, id);
    }
  }

  /** Nothing in the response is news: states are settled, opt-ins and agreements are as reported. */
  predicate Mirrors(n: Node, r: Response) {
    && (forall id | id in n.workloads :: n.workloads[id].state == Settled(r, id))
    && (forall id | id in Merge(r) :: id in n.workloads && Reported(n.workloads[id], r, id))
  }

  predicate Reported(w: Workload, r: Response, id: Id)
    requires id in Merge(r)
  {
    w.monitoring == OptInOf(Merge(r)[id].deployment) && w.agreements == AgreementsOf(IndexOf(r.agreements), id)
  }

  /** Without news, a poll changes nothing at all. */
  lemma NoNewsChangesNothing(n: Node, r: Response, unreadable: set<string>)
    requires Mirrors(n, r)
    ensures Poll(n, Some(r), unreadable) == n
  {
    var n' := Poll(n, Some(r), unreadable);
    forall id | id in n.workloads ensures n'.workloads[id] == n.workloads[id] {
      PollSettlesExactlyWhen(n, r, unreadable, id);
      MergedSaysWhatTheSourcesSay(r, id);
    }
    assert n'.workloads == n.workloads;
    assert n'.files == n.files;
  }

  /** A third identical poll makes no transition and touches no watch, whatever happened before the first. */
  lemma ThirdPollChangesNothing(n: Node, r: Response, u1: set<string>, u2: set<string>, u3: set<string>)
    ensures var n2 := Poll(Poll(n, Some(r), u1), Some(r), u2);
            Poll(n2, Some(r), u3) == n2
  {
    var n1 := Poll(n, Some(r), u1);
    TwoPollsConverge(n, r, u1, u2);
    NoNewsChangesNothing(Poll(n1, Some(r), u2), r, u3);
  }

  // ---------- what is tailed ----------

  /** Only running workloads are tailed. */
  predicate OnlyRunningWatched(n: Node) {
    forall w | w in n.files :: w.id in n.workloads && n.workloads[w.id].state == Running
  }

  lemma PollKeepsOnlyRunning(n: Node, response: Option<Response>, unreadable: set<string>)
    requires OnlyRunningWatched(n)
    ensures OnlyRunningWatched(Poll(n, response, unreadable))
  {
    if response.Some? {
      var n' := Poll(n, response, unreadable);
      forall w | w in n'.files ensures w.id in n'.workloads && n'.workloads[w.id].state == Running {
        assert w.id in n'.workloads;
      }
    }
  }

  lemma {:induction false} OnlyRunningWorkloadsAreWatched(history: seq<Event>)
    ensures OnlyRunningWatched(Run(history))
  {
    if history != [] {
      var e := history[|history| - 1];
      OnlyRunningWorkloadsAreWatched(history[..|history| - 1]);
      PollKeepsOnlyRunning(Run(history[..|history| - 1]), e.response, e.unreadable);
    }
  }

  /** What a workload asked for when it was last found to have started running, and what could not be opened then. */
  datatype Admission = Admission(monitoring: Monitoring, missing: set<string>)

  function Admitted(history: seq<Event>): map<Id, Admission> {
    if history == [] then map[]
    else
      var front, e := history[..|history| - 1], history[|history| - 1];
      Readmitted(Run(front).workloads, Run(history).workloads, Admitted(front),
                 if e.Starting? then e.unreadable * e.stillUnreadable else e.unreadable)
  }

  function Readmitted(before: map<Id, Workload>, after: map<Id, Workload>, admitted: map<Id, Admission>, missing: set<string>):
    map<Id, Admission>
  {
    map id | id in after && after[id].state == Running ::
      if StateOf(before, id) == Some(Running) && id in admitted then admitted[id] else Admission(after[id].monitoring, missing)
  }

  predicate Covers(m: Monitoring, path: string) {
    m.enabled && path in m.logPaths
  }

  /** The path was asked for and could be opened when the workload started running. */
  predicate Opened(a: Admission, path: string) {
    Covers(a.monitoring, path) && path !in a.missing
  }

  /** Exactly the log paths opened when running workloads started. */
  ghost predicate WatchesAdmitted(n: Node, admitted: map<Id, Admission>) {
    && (forall id :: id in admitted <==> id in n.workloads && n.workloads[id].state == Running)
    && (forall id, path :: Watched(id, path) in n.files <==> id in admitted && Opened(admitted[id], path))
  }

  lemma FileAfterPoll(n: Node, admitted: map<Id, Admission>, r: Response, unreadable: set<string>, id: Id, path: string)
    requires WatchesAdmitted(n, admitted)
    ensures var n' := Poll(n, Some(r), unreadable);
            var admitted' := Readmitted(n.workloads, n'.workloads, admitted, unreadable);
            Watched(id, path) in n'.files <==> id in admitted' && Opened(admitted'[id], path)
  {
    assert Watched(id, path) in n.files <==> id in admitted && Opened(admitted[id], path);
  }

  lemma PollWatchesAdmitted(n: Node, admitted: map<Id, Admission>, response: Option<Response>, unreadable: set<string>)
    requires WatchesAdmitted(n, admitted)
    ensures var n' := Poll(n, response, unreadable);
            WatchesAdmitted(n', Readmitted(n.workloads, n'.workloads, admitted, unreadable))
  {
    var n' := Poll(n, response, unreadable);
    var admitted' := Readmitted(n.workloads, n'.workloads, admitted, unreadable);
    if response.None? {
      assert forall id | id in admitted :: admitted'[id] == admitted[id];
    } else {
      forall id, path
        ensures Watched(id, path) in n'.files <==> id in admitted' && Opened(admitted'[id], path)
      {
        FileAfterPoll(n, admitted, response.value, unreadable, id, path);
      }
    }
  }

  /** Seeding opens what the first poll could not, if it can be opened now. */
  lemma SeedingWatchesAdmitted(response: Option<Response>, unreadable: set<string>, stillUnreadable: set<string>)
    ensures var n0 := Node(map[], {}); var n := Step(n0, Starting(response, unreadable, stillUnreadable));
            WatchesAdmitted(n, Readmitted(map[], n.workloads, map[], unreadable * stillUnreadable))
  {
  }

  /** The service starts once. */
  predicate StartsOnce(history: seq<Event>) {
    forall i | 0 < i < |history| :: history[i].Polling?
  }

  /** What is tailed is what each running workload asked for, and could be opened, when it started running. */
  lemma {:induction false} WatchSetIsWhatWasAdmitted(history: seq<Event>)
    requires StartsOnce(history)
    ensures WatchesAdmitted(Run(history), Admitted(history))
  {
    if history != [] {
      var front, e := history[..|history| - 1], history[|history| - 1];
      assert StartsOnce(front) by {
        assert forall i | 0 < i < |front| :: front[i] == history[i];
      }
      WatchSetIsWhatWasAdmitted(front);
      if e.Starting? {
        assert front == [];
        SeedingWatchesAdmitted(e.response, e.unreadable, e.stillUnreadable);
      } else {
        PollWatchesAdmitted(Run(front), Admitted(front), e.response, e.unreadable);
      }
    }
  }

  /** The watch set is the monitorable set: every log path a running workload now asks for, and no other. */
  ghost predicate UpToDate(n: Node) {
    forall id, path :: Watched(id, path) in n.files <==> id in n.workloads && n.workloads[id].state == Running
                                                         && Covers(n.workloads[id].monitoring, path)
  }

  /** No running workload's wishes have changed, and none was refused a path, since it started running. */
  ghost predicate WishesStand(n: Node, admitted: map<Id, Admission>) {
    forall id, path | id in admitted ::
      id in n.workloads && (Opened(admitted[id], path) <==> Covers(n.workloads[id].monitoring, path))
  }

  /**
    The watch set is up to date exactly when every running workload asks for just the paths that were
    opened when it started running: neither a change of opt-in nor a path that can be opened by now is
    acted on.
   */
  lemma UpToDateExactlyWhen(history: seq<Event>)
    requires StartsOnce(history)
    ensures UpToDate(Run(history)) <==> WishesStand(Run(history), Admitted(history))
  {
    WatchSetIsWhatWasAdmitted(history);
    var n, admitted := Run(history), Admitted(history);
    if UpToDate(n) {
      forall id, path | id in admitted
        ensures id in n.workloads && (Opened(admitted[id], path) <==> Covers(n.workloads[id].monitoring, path))
      {
        assert Watched(id, path) in n.files <==> Opened(admitted[id], path);
      }
    }
    if WishesStand(n, admitted) {
      forall id, path
        ensures Watched(id, path) in n.files <==>
                  id in n.workloads && n.workloads[id].state == Running && Covers(n.workloads[id].monitoring, path)
      {
        if id in admitted {
          assert Opened(admitted[id], path) <==> Covers(n.workloads[id].monitoring, path);
        }
      }
    }
  }

  /** One workload, known by one agreement, and by a config that may carry its opt-in. */
  lemma OneWorkload(ref: Ref, agreement: Agreement, entry: Entry)
    requires Usable(ref.url) && agreement == Agreement(false, ref, "a1") && entry.ref == ref && entry.deployment.Some?
    ensures var r, s, id := Response([], [agreement], []), Response([entry], [agreement], []), IdOf(ref);
            && Merge(r).Keys == {id} && Merge(s).Keys == {id}
            && DeploymentIn(Merge(r), id) == None && DeploymentIn(Merge(s), id) == entry.deployment
            && Settled(r, id) == Running && Settled(s, id) == Running
  {
    assert [agreement][..0] == [] && [entry][..0] == [] && agreement in [agreement];
    assert MergeAgreements([agreement]).Keys == {IdOf(ref)};
  }

  /** A poll that finds one workload running, and nothing to open for it. */
  lemma PollOfOne(n: Node, r: Response, id: Id, unreadable: set<string>)
    requires Merge(r).Keys == {id} && Settled(r, id) == Running && n.workloads.Keys <= {id} && n.files == {}
    requires StateOf(n.workloads, id) == Some(Running)
             || forall path | path in OptInOf(DeploymentIn(Merge(r), id)).logPaths :: path in unreadable
    ensures var n' := Poll(n, Some(r), unreadable);
            && n'.workloads.Keys == {id} && n'.workloads[id].state == Running && n'.files == {}
            && n'.workloads[id].monitoring == OptInOf(DeploymentIn(Merge(r), id))
  {
    PollSettlesExactlyWhen(n, r, unreadable, id);
    assert Poll(n, Some(r), unreadable).workloads.Keys == {id};
  }

  lemma StartOfOne(r: Response, id: Id, missing: set<string>)
    requires Merge(r).Keys == {id} && Settled(r, id) == Running
    requires forall path | path in OptInOf(DeploymentIn(Merge(r), id)).logPaths :: path in missing
    ensures var n := Run([Starting(Some(r), missing, missing)]);
            && n.workloads.Keys == {id} && n.workloads[id].state == Running && n.files == {}
            && n.workloads[id].monitoring == OptInOf(DeploymentIn(Merge(r), id))
  {
    var e := Starting(Some(r), missing, missing);
    PollOfOne(Node(map[], {}), r, id, missing);
    assert [e][..0] == [] && Run([e]) == Step(Run([]), e);
    assert Seeded(Poll(Node(map[], {}), Some(r), missing).workloads, missing) == {};
  }

  lemma RunOfOneMore(history: seq<Event>, e: Event)
    ensures Run(history + [e]) == Step(Run(history), e)
  {
    assert (history + [e])[..|history|] == history;
  }

  /** The failing case: a workload that opts in while it is already running is not tailed. */
  lemma LateOptInIsNotTailed()
    ensures var ref := Ref(Some("org"), Some("url"), None, None);
            var agreement := Agreement(false, ref, "a1");
            var later := Entry(ref, Some(Deployment(Monitoring(true, ["/app.log"], false))));
            var n := Run([Starting(Some(Response([], [agreement], [])), {}, {})]
                         + [Polling(Some(Response([later], [agreement], [])), {})]);
            && IdOf(ref) in n.workloads && Monitorable(n.workloads[IdOf(ref)]) && n.files == {}
  {
    var ref := Ref(Some("org"), Some("url"), None, None);
    var agreement := Agreement(false, ref, "a1");
    var later := Entry(ref, Some(Deployment(Monitoring(true, ["/app.log"], false))));
    var first, second := Response([], [agreement], []), Response([later], [agreement], []);
    OneWorkload(ref, agreement, later);
    StartOfOne(first, IdOf(ref), {});
    var start := [Starting(Some(first), {}, {})];
    PollOfOne(Run(start), second, IdOf(ref), {});
    RunOfOneMore(start, Polling(Some(second), {}));
  }

  /** Another: a log file that appears only after its workload has started running is never tailed. */
  lemma UnreadablePathIsNeverRetried(unreadable: set<string>)
    ensures var ref := Ref(Some("org"), Some("url"), None, None);
            var agreement := Agreement(false, ref, "a1");
            var entry := Entry(ref, Some(Deployment(Monitoring(true, ["/app.log"], false))));
            var response := Some(Response([entry], [agreement], []));
            var n := Run([Starting(response, {"/app.log"}, {"/app.log"})] + [Polling(response, unreadable)]);
            && IdOf(ref) in n.workloads && Monitorable(n.workloads[IdOf(ref)]) && n.files == {}
  {
    var ref := Ref(Some("org"), Some("url"), None, None);
    var agreement := Agreement(false, ref, "a1");
    var entry := Entry(ref, Some(Deployment(Monitoring(true, ["/app.log"], false))));
    var r, gone := Response([entry], [agreement], []), {"/app.log"};
    OneWorkload(ref, agreement, entry);
    StartOfOne(r, IdOf(ref), gone);
    var start := [Starting(Some(r), gone, gone)];
    PollOfOne(Run(start), r, IdOf(ref), unreadable);
    RunOfOneMore(start, Polling(Some(r), unreadable));
  }
}
