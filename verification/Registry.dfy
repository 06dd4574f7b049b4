/** The registry that polls the agent, and the log watches its callbacks drive. */
module Registry {
  import opened Basics
  import opened RegistryModel
  import opened RegistryRuns

  /** Of the paths asked for, those tailed already or that can be opened. */
  function Tailed(files: set<Watched>, id: Id, paths: seq<string>, unreadable: set<string>): seq<string> {
    if paths == [] then []
    else
      var before, path := Tailed(files, id, paths[..|paths| - 1], unreadable), paths[|paths| - 1];
      if Watched(id, path) in files || path !in unreadable then before + [path] else before
  }

  class LogMonitor {
    var files: set<Watched>

    constructor ()
      ensures files == {}
    {
      files := {};
    }

    /** Starts tailing every log path that can be opened; returns those being tailed, in the order asked for. */
    method WatchWorkload(id: Id, w: Workload, unreadable: set<string>) returns (watched: seq<string>)
      modifies this
      ensures forall f: Watched :: f in files <==>
                f in old(files) || (f.id == id && Covers(w.monitoring, f.path) && f.path !in unreadable)
      ensures watched == if w.monitoring.enabled then Tailed(old(files), id, w.monitoring.logPaths, unreadable) else []
    {
      if !w.monitoring.enabled {
        return [];
      }
      watched := [];
      for i := 0 to |w.monitoring.logPaths|
        invariant forall f: Watched :: f in files <==>
                    f in old(files) || (f.id == id && f.path in w.monitoring.logPaths[..i] && f.path !in unreadable)
        invariant watched == Tailed(old(files), id, w.monitoring.logPaths[..i], unreadable)
      {
        var path := w.monitoring.logPaths[i];
        assert w.monitoring.logPaths[..i + 1][..i] == w.monitoring.logPaths[..i];
        if Watched(id, path) in files {
          watched := watched + [path];
        } else if path !in unreadable {
          files := files + {Watched(id, path)};
          watched := watched + [path];
        }
      }
      assert w.monitoring.logPaths[..|w.monitoring.logPaths|] == w.monitoring.logPaths;
    }

    method UnwatchWorkload(id: Id)
      modifies this
      ensures forall f: Watched :: f in files <==> f in old(files) && f.id != id
    {
      files := set f | f in files && f.id != id;
    }
  }

  lemma WatchesFollow(before: Node, after: map<Id, Workload>, files: set<Watched>, unreadable: set<string>)
    requires forall f: Watched | f.id !in after :: f in files <==> f in before.files
    requires forall f: Watched | f.id in after ::
               f in files <==> StillWatched(StateOf(before.workloads, f.id), after[f.id], f in before.files, f.path, unreadable)
    ensures files == Rewatched(before.workloads, after, before.files, unreadable)
  {
    forall f: Watched ensures f in files <==> f in Rewatched(before.workloads, after, before.files, unreadable) {
    }
  }

  class WorkloadRegistry {
    const logMonitor: LogMonitor
    var workloads: map<Id, Workload>

    ghost function View(): Node
      reads this, logMonitor
    {
      Node(workloads, logMonitor.files)
    }

    constructor ()
      ensures fresh(logMonitor) && View() == Run([])
    {
      logMonitor := new LogMonitor();
      workloads := map[];
    }

    static method IndexAgreements(agreements: seq<Agreement>) returns (index: map<Id, seq<string>>)
      ensures index == IndexOf(agreements)
    {
      index := map[];
      for i := 0 to |agreements|
        invariant index == IndexOf(agreements[..i])
      {
        assert agreements[..i + 1][..i] == agreements[..i];
        var a := agreements[i];
        if a.terminated || !Usable(a.workload.url) {
          continue;
        }
        var id := IdOf(a.workload);
        index := index[id := (if id in index then index[id] else []) + [a.agreementId]];
      }
      assert agreements[..|agreements|] == agreements;
    }

    /** Agreements first, then definitions, then configs, each refining what is there. */
    static method MergeSources(r: Response) returns (merged: Merged)
      ensures merged == Merge(r)
    {
      merged := map[];
      for i := 0 to |r.agreements|
        invariant merged == MergeAgreements(r.agreements[..i])
      {
        assert r.agreements[..i + 1][..i] == r.agreements[..i];
        merged := WithAgreement(merged, r.agreements[i]);
      }
      assert r.agreements[..|r.agreements|] == r.agreements;
      ghost var started := merged;
      for i := 0 to |r.definitions|
        invariant merged == MergeDefinitions(started, r.definitions[..i])
      {
        assert r.definitions[..i + 1][..i] == r.definitions[..i];
        merged := WithDefinition(merged, r.definitions[i]);
      }
      assert r.definitions[..|r.definitions|] == r.definitions;
      ghost var defined := merged;
      for i := 0 to |r.configs|
        invariant merged == MergeConfigs(defined, r.configs[..i])
      {
        assert r.configs[..i + 1][..i] == r.configs[..i];
        merged := WithConfig(merged, r.configs[i]);
      }
      assert r.configs[..|r.configs|] == r.configs;
    }

    /** Attaches or detaches log watching once a workload's state has changed. */
    method OnWorkloadChange(id: Id, w: Workload, previous: WorkloadState, unreadable: set<string>)
      modifies logMonitor
      ensures forall f: Watched | f.id != id :: f in logMonitor.files <==> f in old(logMonitor.files)
      ensures forall f: Watched | f.id == id :: f in logMonitor.files <==>
                if Monitorable(w) then f in old(logMonitor.files) || (f.path in w.monitoring.logPaths && f.path !in unreadable)
                else f in old(logMonitor.files) && previous != Running
    {
      if Monitorable(w) {
        var _ := logMonitor.WatchWorkload(id, w, unreadable);
      } else if previous == Running {
        logMonitor.UnwatchWorkload(id);
      }
    }

    /** Puts a workload in a new state and tells the service. */
    method Transition(id: Id, state: WorkloadState, unreadable: set<string>)
      requires id in workloads && workloads[id].state != state
      modifies this, logMonitor
      ensures workloads == old(workloads)[id := old(workloads[id]).(state := state)]
      ensures forall f: Watched | f.id != id :: f in logMonitor.files <==> f in old(logMonitor.files)
      ensures forall f: Watched | f.id == id :: f in logMonitor.files <==>
                StillWatched(Some(old(workloads[id].state)), workloads[id], f in old(logMonitor.files), f.path, unreadable)
    {
      var previous := workloads[id].state;
      workloads := workloads[id := workloads[id].(state := state)];
      OnWorkloadChange(id, workloads[id], previous, unreadable);
    }

    /** Records one merged entry under the identity its own fields give. */
    method Upsert(entry: Entry, index: map<Id, seq<string>>, unreadable: set<string>) returns (seen: Option<Id>)
      modifies this, logMonitor
      ensures !Usable(entry.ref.url) ==> seen == None && View() == old(View())
      ensures Usable(entry.ref.url) ==> seen == Some(IdOf(entry.ref))
      ensures Usable(entry.ref.url) ==> var id := IdOf(entry.ref);
                && workloads == old(workloads)[id := Listed(StateOf(old(workloads), id), entry, AgreementsOf(index, id))]
                && (forall f: Watched | f.id != id :: f in logMonitor.files <==> f in old(logMonitor.files))
                && (forall f: Watched | f.id == id :: f in logMonitor.files <==>
                      StillWatched(StateOf(old(workloads), id), workloads[id], f in old(logMonitor.files), f.path, unreadable))
    {
      if !Usable(entry.ref.url) {
        return None;
      }
      var id := IdOf(entry.ref);
      var agreements := AgreementsOf(index, id);
      var state := if agreements != [] then Running else Registered;
      var monitoring := OptInOf(entry.deployment);
      if id !in workloads {
        workloads := workloads[id := Workload(monitoring, state, agreements)];
        OnWorkloadChange(id, workloads[id], Registered, unreadable);
        return Some(id);
      }
      workloads := workloads[id := workloads[id].(monitoring := monitoring, agreements := agreements)];
      if state == Registered && workloads[id].state == Running {
        state := Stopped;
      }
      if state != workloads[id].state {
        Transition(id, state, unreadable);
      }
      return Some(id);
    }

    /** The workloads and watches once the identities in `done` have been dealt with. */
    ghost predicate PartlyPolled(before: Node, after: map<Id, Workload>, done: set<Id>, unreadable: set<string>)
      reads this, logMonitor
    {
      && workloads.Keys == before.workloads.Keys + done && done <= after.Keys
      && (forall id | id in workloads :: workloads[id] == if id in done then after[id] else before.workloads[id])
      && (forall f: Watched | f.id !in done :: f in logMonitor.files <==> f in before.files)
      && (forall f: Watched | f.id in done :: f in logMonitor.files <==>
            StillWatched(StateOf(before.workloads, f.id), after[f.id], f in before.files, f.path, unreadable))
    }

    method UpsertNext(id: Id, merged: Merged, index: map<Id, seq<string>>, unreadable: set<string>, ghost before: Node, ghost done: set<Id>)
      requires Keyed(merged) && id in merged && id !in done
      requires PartlyPolled(before, Polled(before.workloads, merged, index), done, unreadable)
      modifies this, logMonitor
      ensures PartlyPolled(before, Polled(before.workloads, merged, index), done + {id}, unreadable)
    {
      var found := Upsert(merged[id], index, unreadable);
    }

    method UpsertAll(merged: Merged, index: map<Id, seq<string>>, unreadable: set<string>) returns (seen: set<Id>)
      requires Keyed(merged)
      modifies this, logMonitor
      ensures seen == merged.Keys
      ensures PartlyPolled(old(View()), Polled(old(workloads), merged, index), merged.Keys, unreadable)
    {
      ghost var before, after := View(), Polled(workloads, merged, index);
      seen := {};
      var todo := merged.Keys;
      while todo != {}
        invariant seen + todo == merged.Keys && seen !! todo
        invariant PartlyPolled(before, after, seen, unreadable)
      {
        var id :| id in todo;
        UpsertNext(id, merged, index, unreadable, before, seen);
        seen, todo := seen + {id}, todo - {id};
      }
    }

    /** One workload that is no longer reported. */
    method RemoveNext(id: Id, unreadable: set<string>, ghost before: Node, ghost after: map<Id, Workload>, ghost done: set<Id>)
      requires PartlyPolled(before, after, done, unreadable)
      requires id in after && id !in done && id in before.workloads && after[id] == before.workloads[id].(state := Removed)
      modifies this, logMonitor
      ensures PartlyPolled(before, after, done + {id}, unreadable)
    {
      if workloads[id].state != Removed {
        Transition(id, Removed, unreadable);
      }
    }

    /** Anything no longer reported is marked removed. */
    method RemoveUnseen(seen: set<Id>, unreadable: set<string>, ghost before: Node, ghost after: map<Id, Workload>)
      requires PartlyPolled(before, after, seen, unreadable) && after.Keys == workloads.Keys
      requires forall id | id in after && id !in seen :: id in before.workloads && after[id] == before.workloads[id].(state := Removed)
      modifies this, logMonitor
      ensures PartlyPolled(before, after, after.Keys, unreadable)
    {
      var todo := workloads.Keys - seen;
      ghost var done := seen;
      while todo != {}
        invariant done + todo == after.Keys && done !! todo && seen <= done
        invariant PartlyPolled(before, after, done, unreadable)
      {
        var id :| id in todo;
        RemoveNext(id, unreadable, before, after, done);
        done, todo := done + {id}, todo - {id};
      }
      assert done == after.Keys;
    }

    method PollOnce(response: Option<Response>, unreadable: set<string>)
      modifies this, logMonitor
      ensures View() == Poll(old(View()), response, unreadable)
    {
      if response.None? {
        return;
      }
      ghost var before := View();
      var index := IndexAgreements(response.value.agreements);
      var merged := MergeSources(response.value);
      MergedEntriesKeepTheirIdentity(response.value);
      ghost var after := Polled(workloads, merged, index);
      var seen := UpsertAll(merged, index, unreadable);
      RemoveUnseen(seen, unreadable, before, after);
      assert workloads == after;
      WatchesFollow(before, after, logMonitor.files, unreadable);
    }

    /** Polls once, then starts tailing whatever may be tailed. */
    method Start(response: Option<Response>, unreadable: set<string>, stillUnreadable: set<string>)
      modifies this, logMonitor
      ensures View() == Step(old(View()), Starting(response, unreadable, stillUnreadable))
    {
      PollOnce(response, unreadable);
      var todo := set id | id in workloads && Monitorable(workloads[id]);
      ghost var files, done := logMonitor.files, {};
      while todo != {}
        invariant workloads == Poll(old(View()), response, unreadable).workloads
        invariant done + todo == set id | id in workloads && Monitorable(workloads[id])
        invariant forall f: Watched :: f in logMonitor.files <==>
                    f in files || (f.id in done && Covers(workloads[f.id].monitoring, f.path) && f.path !in stillUnreadable)
      {
        var id :| id in todo;
        var _ := logMonitor.WatchWorkload(id, workloads[id], stillUnreadable);
        done, todo := done + {id}, todo - {id};
      }
      assert logMonitor.files == files + Seeded(workloads, stillUnreadable);
    }
  }
}
