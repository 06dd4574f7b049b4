/** Which workloads the agent reports, what state each is in, and which of their logs are tailed. */
module RegistryModel {
  import opened Basics

  /** A workload's identity; the text form made of these parts is taken to be unique. */
  datatype Id = Id(org: string, url: string, version: string, arch: string)

  /** How a source names a workload; a missing part reads as the empty text. */
  datatype Ref = Ref(org: Option<string>, url: Option<string>, version: Option<string>, arch: Option<string>)

  datatype Monitoring = Monitoring(enabled: bool, logPaths: seq<string>, exportContent: bool)

  /** A deployment description, by the opt-in found in it. */
  datatype Deployment = NoDeployment | Deployment(optIn: Monitoring)

  datatype Agreement = Agreement(terminated: bool, workload: Ref, agreementId: string)

  datatype Definition = Definition(
    specRef: Option<string>, url: Option<string>, organization: Option<string>, org: Option<string>,
    version: Option<string>, arch: Option<string>, deployment: Deployment)

  /** A service config, and also an entry of the merged view. */
  datatype Entry = Entry(ref: Ref, deployment: Option<Deployment>)

  datatype Response = Response(configs: seq<Entry>, agreements: seq<Agreement>, definitions: seq<Definition>)

  predicate Usable(text: Option<string>) {
    text.Some? && text.value != ""
  }

  /** `mapping.get(key, fallback)`. */
  function TextOr(text: Option<string>, fallback: string): string {
    if text.Some? then text.value else fallback
  }

  function IdOf(r: Ref): Id {
    Id(TextOr(r.org, ""), TextOr(r.url, ""), TextOr(r.version, ""), TextOr(r.arch, ""))
  }

  // ---------- agreements ----------

  predicate Active(a: Agreement) {
    !a.terminated && Usable(a.workload.url)
  }

  function IndexOf(agreements: seq<Agreement>): map<Id, seq<string>> {
    if agreements == [] then map[]
    else
      var index, a := IndexOf(agreements[..|agreements| - 1]), agreements[|agreements| - 1];
      if !Active(a) then index
      else
        var id := IdOf(a.workload);
        index[id := (if id in index then index[id] else []) + [a.agreementId]]
  }

  // ---------- the three sources, merged ----------

  function DefinitionUrl(d: Definition): Option<string> {
    if Usable(d.specRef) then d.specRef else d.url
  }

  function DefinitionOrg(d: Definition): string {
    if Usable(d.organization) then d.organization.value else TextOr(d.org, "")
  }

  function DefinitionId(d: Definition): Id {
    Id(DefinitionOrg(d), TextOr(DefinitionUrl(d), ""), TextOr(d.version, ""), TextOr(d.arch, ""))
  }

  type Merged = map<Id, Entry>

  function WithAgreement(merged: Merged, a: Agreement): Merged {
    if !Active(a) then merged
    else
      var id := IdOf(a.workload);
      merged[id := Entry(Ref(Some(id.org), Some(id.url), Some(id.version), Some(id.arch)), None)]
  }

  function WithDefinition(merged: Merged, d: Definition): Merged {
    if !Usable(DefinitionUrl(d)) then merged
    else
      var id := DefinitionId(d);
      var was := if id in merged then merged[id] else Entry(Ref(Some(id.org), Some(id.url), Some(id.version), None), None);
      merged[id := Entry(Ref(Some(id.org), Some(id.url), Some(TextOr(d.version, TextOr(was.ref.version, ""))),
                             Some(TextOr(d.arch, TextOr(was.ref.arch, "")))), Some(d.deployment))]
  }

  function Either<T>(first: Option<T>, second: Option<T>): Option<T> {
    if first.Some? then first else second
  }

  function WithConfig(merged: Merged, c: Entry): Merged {
    if !Usable(c.ref.url) then merged
    else
      var id := IdOf(c.ref);
      var was := if id in merged then merged[id] else Entry(Ref(None, None, None, None), None);
      merged[id := Entry(Ref(Either(c.ref.org, was.ref.org), c.ref.url, Either(c.ref.version, was.ref.version),
                             Either(c.ref.arch, was.ref.arch)), Either(c.deployment, was.deployment))]
  }

  function MergeAgreements(agreements: seq<Agreement>): Merged {
    if agreements == [] then map[]
    else WithAgreement(MergeAgreements(agreements[..|agreements| - 1]), agreements[|agreements| - 1])
  }

  function MergeDefinitions(merged: Merged, definitions: seq<Definition>): Merged {
    if definitions == [] then merged
    else WithDefinition(MergeDefinitions(merged, definitions[..|definitions| - 1]), definitions[|definitions| - 1])
  }

  function MergeConfigs(merged: Merged, configs: seq<Entry>): Merged {
    if configs == [] then merged
    else WithConfig(MergeConfigs(merged, configs[..|configs| - 1]), configs[|configs| - 1])
  }

  function Merge(r: Response): Merged {
    MergeConfigs(MergeDefinitions(MergeAgreements(r.agreements), r.definitions), r.configs)
  }

  // ---------- one poll ----------

  datatype WorkloadState = Registered | Running | Stopped | Removed

  datatype Workload = Workload(monitoring: Monitoring, state: WorkloadState, agreements: seq<string>)

  /** One file being tailed for a workload. */
  datatype Watched = Watched(id: Id, path: string)

  datatype Node = Node(workloads: map<Id, Workload>, files: set<Watched>)

  const OPTED_OUT := Monitoring(false, [], false)

  function OptInOf(d: Option<Deployment>): Monitoring {
    if d.Some? && d.value.Deployment? then d.value.optIn else OPTED_OUT
  }

  predicate Monitorable(w: Workload) {
    w.monitoring.enabled && w.state == Running && w.monitoring.logPaths != []
  }

  /** A listed workload's next state; one that ran and lost its agreements is stopped for one poll. */
  function ListedState(was: Option<WorkloadState>, active: bool): WorkloadState {
    if active then Running else if was == Some(Running) then Stopped else Registered
  }

  function StateOf(workloads: map<Id, Workload>, id: Id): Option<WorkloadState> {
    if id in workloads then Some(workloads[id].state) else None
  }

  function AgreementsOf(index: map<Id, seq<string>>, id: Id): seq<string> {
    if id in index then index[id] else []
  }

  /** A workload once it was found listed as `entry`. */
  function Listed(was: Option<WorkloadState>, entry: Entry, agreements: seq<string>): Workload {
    Workload(OptInOf(entry.deployment), ListedState(was, agreements != []), agreements)
  }

  function Polled(workloads: map<Id, Workload>, merged: Merged, index: map<Id, seq<string>>): map<Id, Workload> {
    map id | id in workloads.Keys + merged.Keys ::
      if id in merged then Listed(StateOf(workloads, id), merged[id], AgreementsOf(index, id))
      else workloads[id].(state := Removed)
  }

  /** What a change of state does to a workload's tailed files. */
  predicate StillWatched(was: Option<WorkloadState>, now: Workload, held: bool, path: string, unreadable: set<string>) {
    if was == Some(now.state) then held
    else if Monitorable(now) then held || (path in now.monitoring.logPaths && path !in unreadable)
    else held && was != Some(Running)
  }

  /** The files tailed after a poll changed `before` into `after`. */
  function Rewatched(before: map<Id, Workload>, after: map<Id, Workload>, files: set<Watched>, unreadable: set<string>): set<Watched> {
    (set w | w in files && (w.id !in after || StillWatched(StateOf(before, w.id), after[w.id], true, w.path, unreadable)))
    + (set id, path | id in after && path in after[id].monitoring.logPaths
                      && StillWatched(StateOf(before, id), after[id], Watched(id, path) in files, path, unreadable) :: Watched(id, path))
  }

  /** One discovery cycle; an unreachable agent leaves everything as it was. */
  function Poll(n: Node, response: Option<Response>, unreadable: set<string>): Node {
    if response.None? then n
    else
      var after := Polled(n.workloads, Merge(response.value), IndexOf(response.value.agreements));
      Node(after, Rewatched(n.workloads, after, n.files, unreadable))
  }

  /** Starting the service tails every monitorable workload's readable files. */
  function Seeded(workloads: map<Id, Workload>, unreadable: set<string>): set<Watched> {
    set id, path | id in workloads && Monitorable(workloads[id]) && path in workloads[id].monitoring.logPaths
                   && path !in unreadable :: Watched(id, path)
  }

  /** A poll, or the first one together with the seeding of the watches; and which paths could not be opened. */
  datatype Event =
    | Polling(response: Option<Response>, unreadable: set<string>)
    | Starting(response: Option<Response>, unreadable: set<string>, stillUnreadable: set<string>)

  function Step(n: Node, e: Event): Node {
    var next := Poll(n, e.response, e.unreadable);
    if e.Starting? then next.(files := next.files + Seeded(next.workloads, e.stillUnreadable)) else next
  }

  function Run(history: seq<Event>): Node {
    if history == [] then Node(map[], {}) else Step(Run(history[..|history| - 1]), history[|history| - 1])
  }
}
