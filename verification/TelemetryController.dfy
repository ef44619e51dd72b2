/** The Telemetry controller as it runs: stored children and the condition list of
    the instance are updated section by section. */
module TelemetryController {
  import opened Conditions
  import opened TelemetryParent
  import opened TelemetryReadiness
  import opened TelemetryCopies
  import A = Admission

  class Instance {
    const d: Defaults
    const o: Oracle
    const spec: A.TelemetrySpec
    var world: World
    var conditions: Conds
    var seen: map<Kind, Child>

    constructor (d: Defaults, o: Oracle, spec: A.TelemetrySpec, w: World, conditions: Conds)
      ensures this.d == d && this.o == o && this.spec == spec && State() == Local(w, conditions, map[])
    {
      this.d, this.o, this.spec, world, this.conditions, seen := d, o, spec, w, conditions, map[];
    }

    function State(): Local
      reads this
    {
      Local(world, conditions, seen)
    }

    /** ensureDeleted: a child that is not yet terminating is deleted. */
    method Delete(kind: Kind) returns (failed: bool)
      modifies this`world
      ensures (world, failed) == EnsureDeleted(o, kind, old(world))
    {
      if o.getFails(kind) { return true; }
      var child := Get(world, kind);
      if child.None? { return false; }
      if !child.value.meta.deleting {
        if o.deleteFails(kind) {
          if o.took(kind) { world := Put(world, kind, Doomed(child.value)); }
          return true;
        }
        world := Put(world, kind, Doomed(child.value));
      }
      return false;
    }

    method Write(kind: Kind) returns (child: Option<Child>)
      modifies this`world
      ensures (world, child) == CreateOrPatch(d, o, spec, kind, old(world))
    {
      hide Applied, Apply;
      var existing := Get(world, kind);
      if existing.Some? && existing.value.owner == Another { return None; }
      if o.applyFails(kind) {
        if o.took(kind) { world := Apply(d, spec, kind, world); }
        return None;
      }
      world := Apply(d, spec, kind, world);
      return Some(Applied(d, spec, kind, existing));
    }

    /** One of reconcileAutoscaling, reconcileCeilometer, reconcileMetricStorage. */
    method ReconcileSection(kind: Kind) returns (failed: bool)
      modifies this`world, this`conditions, this`seen
      ensures Step(State(), failed) == Section(d, o, spec, kind, old(State()))
      ensures var found := Get(Happen(d, old(world), o.env(kind)), kind);
              && (failed <==> GoesWrong(o, spec, kind, found))
              && (!failed && On(spec, kind) ==>
                    kind in world.children && Written(d, spec, kind, found, world.children[kind]))
              && (!failed && !On(spec, kind) ==> kind in world.children ==> world.children[kind].meta.deleting)
    {
      SectionOutcome(d, o, spec, kind, State());
      hide EnsureDeleted, CreateOrPatch, Happen, GoesWrong, Written, On;
      world := Happen(d, world, o.env(kind));
      if !Enabled(spec, kind) {
        failed := Delete(kind);
        if failed { return; }
        conditions := conditions - {CondOf(kind)};
        return;
      }
      var child := Write(kind);
      if child.None? {
        conditions := conditions[CondOf(kind) := False];
        return true;
      }
      if child.value.ready {
        conditions := conditions[CondOf(kind) := True];
      } else {
        conditions := conditions[CondOf(kind) := False];
      }
      seen := seen[kind := child.value];
      failed := false;
    }

    method ReconcileNormal() returns (failed: bool)
      modifies this`world, this`conditions, this`seen
      ensures Step(State(), failed) == Sections(d, o, spec, ORDER, old(State()))
    {
      hide Section, Sections;
      SectionsUnroll(d, o, spec, State());
      failed := ReconcileSection(Autoscalings);
      if failed { return; }
      failed := ReconcileSection(Ceilometers);
      if failed { return; }
      failed := ReconcileSection(MetricStorages);
    }
  }

  /** TelemetryReconciler.Reconcile computes exactly Pass. */
  method ReconcileTelemetry(d: Defaults, o: Oracle, w: World) returns (r: World, failed: bool)
    ensures r == Pass(d, o, w).0 && failed == Pass(d, o, w).1
  {
    hide Sections, ParentActs, Patched, PatchFails, Refreshed;
    if o.fetchFails { return w, true; }
    if w.parent.None? { return w, false; }
    var before := w.parent.value;
    var world, ours, conditions := w, before.meta.ours, before.conditions;
    failed := false;
    if !before.meta.deleting && !before.meta.ours {
      ours := true;
    } else if conditions.None? {
      conditions := Some(AllUnknown(TELEMETRY_CONDS));
    } else if before.meta.deleting {
      ours := false;
    } else {
      var instance := new Instance(d, o, before.spec, w, conditions.value);
      failed := instance.ReconcileNormal();
      world, conditions := instance.world, Some(instance.conditions);
    }
    var updated, stored, patchFailed := PatchInstance(o, before, ours, conditions, world.parent);
    failed := failed || patchFailed;
    r := world.(parent := stored);
  }

  /** The deferred function: Ready is recomputed, then what changed is written to the
      object that is stored by now, finalizer and conditions one after the other. */
  method PatchInstance(o: Oracle, before: Parent, ours: bool, conditions: Option<Conds>, parent: Option<Parent>)
    returns (updated: Option<Conds>, stored: Option<Parent>, failed: bool)
    ensures updated == Refreshed(o, conditions)
    ensures var now := ParentActs(parent, o.parentEnv);
            stored == Patched(o, before, ours, updated, now) && failed == PatchFails(o, before, ours, updated, now)
  {
    hide ParentActs;
    updated := conditions;
    if conditions.Some? {
      updated := Some(WithReady(conditions.value));
    } else if o.nilReady {
      updated := Some(map[Ready := True]);
    }
    stored, failed := ParentActs(parent, o.parentEnv), false;
    if ours != before.meta.ours {
      if o.patchMeta && stored.Some? {
        stored := PutParentMeta(stored, stored.value.meta.(ours := ours));
      } else {
        failed := true;
      }
    }
    if updated != before.conditions {
      if o.patchStatus && stored.Some? {
        stored := Some(stored.value.(conditions := updated));
      } else {
        failed := true;
      }
    }
  }
}
