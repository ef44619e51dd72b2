/** The MetricStorage controller as it runs: the reconciler object keeps the list of
    watched kinds between passes and extends it in place. */
module MetricStorageController {
  import opened Conditions
  import opened Watches
  import opened StorageReadiness
  import A = Admission
  import B = Builders

  class MetricStorageReconciler {
    var watching: seq<string>
    ghost var registered: seq<string>

    constructor ()
      ensures watching == [] && registered == []
    {
      watching, registered := [], [];
    }

    ghost function Slices(conds: Conds): State
      reads this
    {
      State(watching, registered, conds)
    }

    /** ensureWatches. */
    method EnsureWatches(o: Oracle, name: string) returns (failed: bool)
      modifies this
      ensures forall conds :: (Slices(conds), failed) == EnsureWatch(o, name, old(Slices(conds)))
    {
      for i := 0 to |watching|
        invariant name !in watching[..i]
      {
        if watching[i] == name { return false; }
      }
      assert watching[..|watching|] == watching;
      if o.crdMissing(name) { return true; }
      if o.watchFails(name) { return true; }
      watching, registered := watching + [name], registered + [name];
      failed := false;
    }

    /** The state and the result of a stretch of a pass. */
    ghost predicate Follows(f: Flow, stop: bool, conds: Conds, result: Result)
      reads this
    {
      f == if stop then Stop(Slices(conds), result) else Next(Slices(conds))
    }

    method Require(o: Oracle, name: string, c: Cond, before: Conds) returns (stop: bool, conds: Conds, result: Result)
      modifies this
      ensures Follows(Watched(o, name, c, old(Slices(before))), stop, conds, result)
    {
      hide EnsureWatch;
      conds, result := before, DONE;
      stop := EnsureWatches(o, name);
      assert (Slices(before), stop) == EnsureWatch(o, name, old(Slices(before)));
      if stop {
        conds := conds[c := False];
        result := Result(true, false);
      }
    }

    method DeployMonitoringStack(o: Oracle, spec: A.MetricStorageSpec, before: Conds)
      returns (stop: bool, conds: Conds, result: Result)
      modifies this
      ensures Follows(DeployStack(o, spec, old(Slices(before))), stop, conds, result)
    {
      hide Watched;
      stop, conds, result := Require(o, MONITORING_STACKS, MonitoringStackReady, before);
      if stop { return; }
      if B.Build(spec, o.parse).Err? || o.stackFails {
        return true, conds, Result(false, true);
      }
      conds := JudgeStack(o.stackStatus, conds);
    }

    /** The loop over the conditions of the MonitoringStack. */
    method JudgeStack(status: seq<bool>, before: Conds) returns (conds: Conds)
      ensures forall s: State :: s.conds == before ==> StackVerdict(s, status) == s.(conds := conds)
      ensures Judged(status, before, conds)
      ensures forall c :: c != MonitoringStackReady ==> SameEntry(before, conds, c)
    {
      conds := before;
      var ready := true;
      for i := 0 to |status|
        invariant ready && conds == before && false !in status[..i]
      {
        if !status[i] {
          conds := conds[MonitoringStackReady := False];
          ready := false;
          break;
        }
      }
      assert ready ==> status[..|status|] == status;
      if |status| == 0 { ready := false; }
      if ready { conds := conds[MonitoringStackReady := True]; }
    }

    method DeployServiceMonitor(o: Oracle, before: Conds) returns (stop: bool, conds: Conds, result: Result)
      modifies this
      ensures Follows(DeployMonitor(o, old(Slices(before))), stop, conds, result)
    {
      hide Watched;
      stop, conds, result := Require(o, SERVICE_MONITORS, ServiceMonitorReady, before);
      if stop { return; }
      if o.monitorFails {
        return true, conds, Result(false, true);
      }
      conds := conds[ServiceMonitorReady := True];
    }

    method WatchNodeSetKind(o: Oracle, before: Conds) returns (stop: bool, conds: Conds, result: Result)
      modifies this
      ensures Follows(WatchNodeSets(o, old(Slices(before))), stop, conds, result)
    {
      hide Watched;
      stop, conds, result := Require(o, NODE_SETS, NodeSetReady, before);
      if stop { return; }
      conds := conds[NodeSetReady := True];
    }

    method DeployScrapes(o: Oracle, before: Conds) returns (stop: bool, conds: Conds, result: Result)
      modifies this
      ensures Follows(DeployScrapeConfig(o, old(Slices(before))), stop, conds, result)
    {
      hide Watched;
      stop, conds, result := Require(o, SCRAPE_CONFIGS, ScrapeConfigReady, before);
      if stop { return; }
      if o.targetsFail || o.scrapeFails {
        return true, conds, Result(false, true);
      }
      conds := conds[ScrapeConfigReady := True];
    }

    method ReconcileNormal(o: Oracle, spec: A.MetricStorageSpec, before: Conds)
      returns (stop: bool, conds: Conds, result: Result)
      modifies this
      ensures Follows(Normal(o, spec, old(Slices(before))), stop, conds, result)
    {
      hide DeployStack, DeployMonitor, WatchNodeSets, DeployScrapeConfig;
      if spec.custom.None? && spec.monitoringStack.None? {
        return true, before[MonitoringStackReady := False], DONE;
      }
      stop, conds, result := DeployMonitoringStack(o, spec, before);
      if stop { return; }
      stop, conds, result := DeployServiceMonitor(o, conds);
      if stop { return; }
      stop, conds, result := WatchNodeSetKind(o, conds);
      if stop { return; }
      stop, conds, result := DeployScrapes(o, conds);
    }

    /** Reconcile computes exactly Pass. */
    method Reconcile(o: Oracle, before: Option<MetricStorage>) returns (stored: Option<MetricStorage>, result: Result)
      modifies this
      ensures var p := Pass(o, before, old(watching), old(registered));
              watching == p.watching && registered == p.registered && stored == p.out.stored && result == p.out.result
    {
      hide Normal;
      if o.fetchFails { return before, Result(false, true); }
      if before.None? { return before, DONE; }
      var m := before.value;
      var ours, conditions := m.meta.ours, m.conditions;
      result := DONE;
      if !m.meta.deleting && !m.meta.ours {
        ours := true;
      } else if m.conditions.None? {
        conditions := Some(AllUnknown(METRIC_STORAGE_CONDS));
      } else if m.meta.deleting {
        ours := false;
      } else {
        var stop, conds;
        stop, conds, result := ReconcileNormal(o, m.spec, m.conditions.value);
        conditions := Some(conds);
        if !stop { result := DONE; }
      }
      stored := PatchInstance(o, m, ours, conditions);
    }

    /** The deferred function: Ready is recomputed, then what changed is written to the
        object that is stored by now. */
    method PatchInstance(o: Oracle, before: MetricStorage, ours: bool, conditions: Option<Conds>)
      returns (stored: Option<MetricStorage>)
      ensures stored == Patched(o, before, ours, Refreshed(o, conditions), ObjectActs(Some(before), o.env))
    {
      var updated := conditions;
      if conditions.Some? {
        updated := Some(WithReady(conditions.value));
      } else if o.nilReady {
        updated := Some(map[Ready := True]);
      }
      stored := ObjectActs(Some(before), o.env);
      if stored.Some? && o.patchMeta && ours != before.meta.ours {
        stored := PutMeta(stored.value, stored.value.meta.(ours := ours));
      }
      if stored.Some? && o.patchStatus && updated != before.conditions {
        stored := Some(stored.value.(conditions := updated));
      }
    }
  }
}
