/** What a Telemetry pass makes of its three sections, field by field, and what it does
    when something fails. */
module TelemetryCopies {
  import opened Conditions
  import opened Cluster
  import opened TelemetryParent
  import opened TelemetryReadiness
  import A = Admission

  // ---------------------------------------------------------------- the copies

  /** A string field of a child: the section's own, or a default where that is blank. */
  predicate Filled(value: string, own: string, fallback: string) {
    value == if own != "" then own else fallback
  }

  predicate CeilometerCopied(x: A.CeilometerSpec, section: A.CeilometerSpec, d: A.CeilometerImages) {
    var i, j := x.images, section.images;
    && x.rest == section.rest
    && Filled(i.central, j.central, d.central) && Filled(i.notification, j.notification, d.notification)
    && Filled(i.sgCore, j.sgCore, d.sgCore) && Filled(i.compute, j.compute, d.compute)
    && Filled(i.ipmi, j.ipmi, d.ipmi) && Filled(i.nodeExporter, j.nodeExporter, d.nodeExporter)
  }

  predicate AutoscalingCopied(x: A.AutoscalingSpec, section: A.AutoscalingSpec, d: A.AodhImages) {
    var i, j := x.images, section.images;
    && x.rest == section.rest
    && Filled(i.api, j.api, d.api) && Filled(i.evaluator, j.evaluator, d.evaluator)
    && Filled(i.notifier, j.notifier, d.notifier) && Filled(i.listener, j.listener, d.listener)
  }

  /** A stack whose blanks are filled: every 30 seconds, on 20G of persistent storage,
      kept for a day. */
  predicate StackFilled(x: A.MonitoringStack, own: A.MonitoringStack) {
    var p, q := x.storage.persistent, own.storage.persistent;
    && x.alertingEnabled == own.alertingEnabled
    && Filled(x.scrapeInterval, own.scrapeInterval, "30s")
    && Filled(x.storage.strategy, own.storage.strategy, "persistent")
    && Filled(x.storage.retention, own.storage.retention, "24h")
    && p.selector == q.selector && p.storageClass == q.storageClass
    && p.request == if q.request == "" && x.storage.strategy == "persistent" then "20G" else q.request
  }

  /** The stack of a MetricStorage that sets none at all: alerting on, all else blank. */
  const PLAIN_STACK := A.MonitoringStack(true, "", A.Storage("", "", A.PersistentStorage("", "", "")))

  /** What is set in the section is in the child; what is not stays as it was there. */
  predicate StorageCopied(x: A.MetricStorageSpec, section: A.MetricStorageSpec, was: A.MetricStorageSpec) {
    var custom := if section.custom.Some? then section.custom else was.custom;
    var stack := if section.monitoringStack.Some? then section.monitoringStack else was.monitoringStack;
    && x.custom == custom
    && (stack.Some? ==> x.monitoringStack.Some? && StackFilled(x.monitoringStack.value, stack.value))
    && (stack.None? && custom.None? ==>
          x.monitoringStack.Some? && StackFilled(x.monitoringStack.value, PLAIN_STACK))
    && (stack.None? && custom.Some? ==> x.monitoringStack.None?)
  }

  /** What a child had before, if it was there. */
  function StorageBefore(c: Option<Child>): A.MetricStorageSpec {
    if c.Some? && c.value.spec.StoragePayload? then c.value.spec.storage else A.MetricStorageSpec(None, None)
  }

  /** A child `x` as its section wants it; `was` is the child that the pass found. */
  predicate Copied(d: Defaults, t: A.TelemetrySpec, kind: Kind, was: Option<Child>, x: Child) {
    && x.owner == Us
    && (kind == Ceilometers ==>
          x.spec.CeilometerPayload? && CeilometerCopied(x.spec.ceilometer, t.ceilometer, d.ceilometer))
    && (kind == Autoscalings ==>
          x.spec.AutoscalingPayload? && AutoscalingCopied(x.spec.autoscaling, t.autoscaling, d.aodh))
    && (kind == MetricStorages ==>
          x.spec.StoragePayload? && StorageCopied(x.spec.storage, t.metricStorage, StorageBefore(was)))
  }

  /** The flag of a section. */
  predicate On(t: A.TelemetrySpec, kind: Kind) {
    || (kind == Autoscalings && t.autoscalingEnabled)
    || (kind == Ceilometers && t.ceilometerEnabled)
    || (kind == MetricStorages && t.metricStorageEnabled)
  }

  lemma EnabledIsOn(t: A.TelemetrySpec, kind: Kind)
    ensures Enabled(t, kind) <==> On(t, kind)
  {
  }

  lemma AppliedCopies(d: Defaults, t: A.TelemetrySpec, kind: Kind, was: Option<Child>)
    ensures Copied(d, t, kind, was, Applied(d, t, kind, was))
  {
  }

  // ---------------------------------------------------------------- one section

  /** A section goes wrong exactly when a call that it has to make fails, or the child
      belongs to another controller. */
  predicate GoesWrong(o: Oracle, t: A.TelemetrySpec, kind: Kind, c: Option<Child>) {
    if On(t, kind) then (c.Some? && c.value.owner == Another) || o.applyFails(kind)
    else o.getFails(kind) || (c.Some? && !c.value.meta.deleting && o.deleteFails(kind))
  }

  /** The child `x` that CreateOrPatch leaves where it found `c`: a copy, which keeps what
      only the child's own controller writes. */
  predicate Written(d: Defaults, t: A.TelemetrySpec, kind: Kind, c: Option<Child>, x: Child) {
    && Copied(d, t, kind, c, x) && x.owner == Us
    && (if c.Some? then x.meta == c.value.meta && x.initialised == c.value.initialised && x.ready == c.value.ready
        else x.meta == Meta(false, false, false) && !x.initialised && !x.ready)
  }

  lemma WriteOutcome(d: Defaults, o: Oracle, t: A.TelemetrySpec, kind: Kind, w: World)
    ensures var c := Get(w, kind);
            var (w', x) := CreateOrPatch(d, o, t, kind, w);
            && (x.None? <==> (c.Some? && c.value.owner == Another) || o.applyFails(kind))
            && (x.Some? ==> Get(w', kind) == x && Written(d, t, kind, c, x.value))
            && (forall other :: other != kind ==> Get(w', other) == Get(w, other))
  {
    AppliedCopies(d, t, kind, Get(w, kind));
    hide Copied, Admit, CopyInto;
  }

  lemma DeleteOutcome(o: Oracle, kind: Kind, w: World)
    ensures var c := Get(w, kind);
            var (w', failed) := EnsureDeleted(o, kind, w);
            && (failed <==> o.getFails(kind) || (c.Some? && !c.value.meta.deleting && o.deleteFails(kind)))
            && (!failed ==> Get(w', kind).None? || Get(w', kind).value.meta.deleting)
            && (forall other :: other != kind ==> Get(w', other) == Get(w, other))
  {
  }

  /** One section, from the child `c` that it finds: an enabled one leaves a copy and
      reports the child's readiness; a disabled one leaves nothing or a terminating
      child, and no condition. One that goes wrong leaves its condition False if it is
      enabled. The other children and conditions are left alone. */
  lemma SectionOutcome(d: Defaults, o: Oracle, t: A.TelemetrySpec, kind: Kind, l: Local)
    ensures var w := Happen(d, l.world, o.env(kind));
            var c := Get(w, kind);
            var s := Section(d, o, t, kind, l);
            var r := Get(s.local.world, kind);
            && (s.failed <==> GoesWrong(o, t, kind, c))
            && (!s.failed && On(t, kind) ==>
                  && r.Some? && Written(d, t, kind, c, r.value) && s.local.seen == l.seen[kind := r.value]
                  && s.local.conds == l.conds[CondOf(kind) := if r.value.ready then True else False])
            && (!s.failed && !On(t, kind) ==>
                  && (r.None? || r.value.meta.deleting) && s.local.conds == l.conds - {CondOf(kind)}
                  && s.local.seen == l.seen)
            && (s.failed ==>
                  && s.local.conds == (if On(t, kind) then l.conds[CondOf(kind) := False] else l.conds)
                  && s.local.seen == l.seen)
            && (forall other :: other != kind ==> Get(s.local.world, other) == Get(w, other))
  {
    EnabledIsOn(t, kind);
    var w := Happen(d, l.world, o.env(kind));
    WriteOutcome(d, o, t, kind, w);
    DeleteOutcome(o, kind, w);
    hide Happen, Written, CreateOrPatch, EnsureDeleted, Enabled, On, CondOf;
    var r := Section(d, o, t, kind, l);
    if On(t, kind) {
      assert Enabled(t, kind);
      var a := CreateOrPatch(d, o, t, kind, w);
      assert r.local.world == a.0;
      assert r.failed == a.1.None?;
    } else {
      assert !Enabled(t, kind);
      var b := EnsureDeleted(o, kind, w);
      assert r.local.world == b.0;
      assert r.failed == b.1;
    }
  }

  // ---------------------------------------------------------------- whole passes

  /** In the middle of the pass nothing happens to the children but their own passes. */
  ghost predicate PassesOnly(o: Oracle) {
    forall kind, i :: 0 <= i < |o.env(kind)| ==> o.env(kind)[i].Passes?
  }

  /** A child that makes passes keeps its spec and owner, and stays terminating; one that
      is not there does not appear. */
  predicate Sustained(c: Option<Child>, r: Option<Child>) {
    r.Some? ==> c.Some? && r.value.spec == c.value.spec && r.value.owner == c.value.owner
                && (c.value.meta.deleting ==> r.value.meta.deleting)
  }

  lemma {:induction false} HappenSustains(d: Defaults, w: World, es: seq<ChildEvent>, kind: Kind)
    requires forall i :: 0 <= i < |es| ==> es[i].Passes?
    ensures Sustained(Get(w, kind), Get(Happen(d, w, es), kind))
    decreases |es|
  {
    if es != [] {
      assert es[0].Passes?;
      HappenSustains(d, Happens(d, w, es[0]), es[1..], kind);
    }
  }

  /** The goal of a section is kept by what comes after it in the pass. */
  ghost predicate Decided(d: Defaults, t: A.TelemetrySpec, kind: Kind, seen: map<Kind, Child>, c: Option<Child>) {
    if On(t, kind) then
      && kind in seen
      && (c.Some? ==> c.value.spec == seen[kind].spec && c.value.owner == Us)
      && (exists was :: Copied(d, t, kind, was, seen[kind]))
    else c.None? || c.value.meta.deleting
  }

  lemma DecidedSustained(
    d: Defaults, t: A.TelemetrySpec, kind: Kind, seen: map<Kind, Child>, c: Option<Child>, r: Option<Child>)
    requires Decided(d, t, kind, seen, c) && Sustained(c, r)
    ensures Decided(d, t, kind, seen, r)
  {
    hide Copied;
  }

  lemma SectionDecides(d: Defaults, o: Oracle, t: A.TelemetrySpec, kind: Kind, l: Local, other: Kind)
    requires PassesOnly(o) && !Section(d, o, t, kind, l).failed
    requires other != kind ==> Decided(d, t, other, l.seen, Get(l.world, other))
    ensures var s := Section(d, o, t, kind, l).local; Decided(d, t, other, s.seen, Get(s.world, other))
  {
    hide Section, Happen, Copied, Get, GoesWrong, On;
    SectionOutcome(d, o, t, kind, l);
    HappenSustains(d, l.world, o.env(kind), other);
    var w := Happen(d, l.world, o.env(kind));
    if other != kind {
      DecidedSustained(d, t, other, l.seen, Get(l.world, other), Get(w, other));
    } else if On(t, kind) {
      assert Copied(d, t, kind, Get(w, kind), Section(d, o, t, kind, l).local.seen[kind]);
    }
  }

  lemma SectionsDecide(d: Defaults, o: Oracle, t: A.TelemetrySpec, l: Local, kind: Kind)
    requires PassesOnly(o) && !Sections(d, o, t, ORDER, l).failed
    ensures var s := Sections(d, o, t, ORDER, l).local; Decided(d, t, kind, s.seen, Get(s.world, kind))
  {
    hide Section, Sections, Decided, PassesOnly;
    SectionsUnroll(d, o, t, l);
    var s1 := Section(d, o, t, Autoscalings, l).local;
    var s2 := Section(d, o, t, Ceilometers, s1).local;
    if kind == Autoscalings {
      SectionDecides(d, o, t, Autoscalings, l, kind);
    }
    if kind != MetricStorages {
      SectionDecides(d, o, t, Ceilometers, s1, kind);
    }
    SectionDecides(d, o, t, MetricStorages, s2, kind);
  }

  /** After a completed Telemetry pass each section has its way: the child of an enabled
      one, if it is still there, is ours and has the section's own values, with blanks
      filled by the defaults; that of a disabled one is gone or terminating. */
  lemma TelemetryPassCopies(d: Defaults, o: Oracle, w: World)
    requires !o.fetchFails && Working(w) && PassesOnly(o) && Pass(d, o, w).2.value.completed
    ensures var r := Pass(d, o, w);
            var t := w.parent.value.spec;
            forall kind :: Decided(d, t, kind, r.2.value.seen, Get(r.0, kind))
  {
    hide Sections, Decided, ParentActs;
    var p := w.parent.value;
    var l := Local(w, p.conditions.value, map[]);
    forall kind
      ensures Decided(d, p.spec, kind, Pass(d, o, w).2.value.seen, Get(Pass(d, o, w).0, kind))
    {
      SectionsDecide(d, o, p.spec, l, kind);
      assert Get(Pass(d, o, w).0, kind) == Get(Sections(d, o, p.spec, ORDER, l).local.world, kind);
    }
  }

  /** In particular, spelled out for the three flags. */
  lemma SectionsSpelledOut(d: Defaults, o: Oracle, w: World)
    requires !o.fetchFails && Working(w) && PassesOnly(o) && Pass(d, o, w).2.value.completed
    ensures var r := Pass(d, o, w).0;
            var t := w.parent.value.spec;
            && (Ceilometers in r.children && t.ceilometerEnabled ==>
                  var x := r.children[Ceilometers].spec;
                  x.CeilometerPayload? && CeilometerCopied(x.ceilometer, t.ceilometer, d.ceilometer))
            && (Autoscalings in r.children && t.autoscalingEnabled ==>
                  var x := r.children[Autoscalings].spec;
                  x.AutoscalingPayload? && AutoscalingCopied(x.autoscaling, t.autoscaling, d.aodh))
            && (MetricStorages in r.children && t.metricStorageEnabled ==>
                  var x := r.children[MetricStorages].spec;
                  x.StoragePayload? && exists was :: StorageCopied(x.storage, t.metricStorage, was))
            && (Ceilometers in r.children && !t.ceilometerEnabled ==> r.children[Ceilometers].meta.deleting)
            && (Autoscalings in r.children && !t.autoscalingEnabled ==> r.children[Autoscalings].meta.deleting)
            && (MetricStorages in r.children && !t.metricStorageEnabled ==> r.children[MetricStorages].meta.deleting)
  {
    assert Pass(d, o, w).2.Some?;
    hide Pass, CeilometerCopied, AutoscalingCopied, StorageCopied, PassesOnly;
    TelemetryPassCopies(d, o, w);
    var r := Pass(d, o, w);
    var t := w.parent.value.spec;
    var seen := r.2.value.seen;
    assert Decided(d, t, Ceilometers, seen, Get(r.0, Ceilometers));
    assert Decided(d, t, Autoscalings, seen, Get(r.0, Autoscalings));
    assert Decided(d, t, MetricStorages, seen, Get(r.0, MetricStorages));
  }

  // ---------------------------------------------------------------- failing passes

  /** A pass over a live Telemetry that does not complete stopped at one section and says
      so: it returns an error, and if that section is enabled its condition is False, so
      that the Telemetry is not Ready. */
  lemma FailedPassReports(d: Defaults, o: Oracle, w: World) returns (kind: Kind)
    requires !o.fetchFails && Working(w)
    ensures var r := Pass(d, o, w);
            !r.2.value.completed ==>
              && r.1
              && (On(w.parent.value.spec, kind) ==>
                    && r.2.value.conds.Some? && CondOf(kind) in r.2.value.conds.value
                    && r.2.value.conds.value[CondOf(kind)] == False && !IsTrue(r.2.value.conds, Ready))
  {
    hide Sections, ParentActs, On, Happen;
    var p := w.parent.value;
    var l := Local(w, p.conditions.value, map[]);
    kind := Autoscalings;
    if Sections(d, o, p.spec, ORDER, l).failed {
      kind := FailedSection(d, o, p.spec, l);
    }
  }

  /** The section at which the sections stopped. */
  lemma FailedSection(d: Defaults, o: Oracle, t: A.TelemetrySpec, l: Local) returns (kind: Kind)
    requires Sections(d, o, t, ORDER, l).failed
    ensures On(t, kind) ==> CondOf(kind) in Sections(d, o, t, ORDER, l).local.conds
                            && Sections(d, o, t, ORDER, l).local.conds[CondOf(kind)] == False && CondOf(kind) != Ready
  {
    hide Section, Sections, Happen, GoesWrong, Written, On;
    SectionsUnroll(d, o, t, l);
    var s1 := Section(d, o, t, Autoscalings, l);
    var s2 := Section(d, o, t, Ceilometers, s1.local);
    SectionOutcome(d, o, t, Autoscalings, l);
    SectionOutcome(d, o, t, Ceilometers, s1.local);
    SectionOutcome(d, o, t, MetricStorages, s2.local);
    kind := if s1.failed then Autoscalings else if s2.failed then Ceilometers else MetricStorages;
  }

  // ---------------------------------------------------------------- the life of a Telemetry

  /** A pass in which no call of its own fails and nobody touches the parent. */
  predicate Undisturbed(o: Oracle) {
    !o.fetchFails && o.patchMeta && o.patchStatus && o.parentEnv == []
  }

  /** A read that fails is reported, a missing object is not; either way nothing is done. */
  lemma NoPass(d: Defaults, o: Oracle, w: World)
    ensures var r := Pass(d, o, w);
            && (r.2.None? <==> o.fetchFails || w.parent.None?)
            && (r.2.None? ==> r.0 == w && r.1 == o.fetchFails)
  {
    hide Body;
  }

  /** The first pass takes the finalizer and leaves the children alone. */
  lemma FirstPass(d: Defaults, o: Oracle, w: World)
    requires Undisturbed(o) && w.parent.Some? && !w.parent.value.meta.deleting && !w.parent.value.meta.ours
    ensures var r := Pass(d, o, w);
            && !r.1 && r.0.children == w.children && r.0.parent.Some?
            && r.0.parent.value.spec == w.parent.value.spec
            && r.0.parent.value.meta == w.parent.value.meta.(ours := true)
  {
    hide Sections, WithReady;
  }

  /** The next one sets up the list of the three conditions. */
  lemma SecondPass(d: Defaults, o: Oracle, w: World)
    requires Undisturbed(o) && w.parent.Some? && w.parent.value.meta.ours && w.parent.value.conditions.None?
    ensures var r := Pass(d, o, w);
            && !r.1 && r.0.children == w.children && r.0.parent.Some?
            && r.0.parent.value == w.parent.value.(conditions := r.0.parent.value.conditions)
            && r.0.parent.value.conditions.Some?
            && var c := r.0.parent.value.conditions.value;
               && c.Keys == {AutoscalingReady, CeilometerReady, MetricStorageReady, Ready}
               && forall x :: x in c ==> c[x] == Unknown
  {
    hide Sections;
    assert AllUnknown(TELEMETRY_CONDS)[AutoscalingReady] == Unknown;
  }

  /** A pass over a deleted Telemetry drops the finalizer: the object goes, unless others
      hold it, and its children are left to the garbage collector. */
  lemma LastPass(d: Defaults, o: Oracle, w: World)
    requires Undisturbed(o) && w.parent.Some? && w.parent.value.meta.deleting && w.parent.value.conditions.Some?
    requires w.parent.value.meta.ours
    ensures var r := Pass(d, o, w);
            && r.0.children == w.children
            && (r.0.parent.None? <==> !w.parent.value.meta.others)
            && (r.0.parent.Some? ==> !r.0.parent.value.meta.ours)
  {
    hide Sections, WithReady;
  }
}
