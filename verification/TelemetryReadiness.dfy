/** Readiness of a Telemetry: what its condition list says after a pass. */
module TelemetryReadiness {
  import opened Conditions
  import opened TelemetryParent
  import A = Admission

  /** A condition list as passes build it. */
  predicate Tidy(c: Conds) {
    c.Keys <= TELEMETRY_CONDS + {Ready}
  }

  /** The list reflects one section: its condition is there exactly when it is
      enabled, and tells whether the child that was seen is Ready. */
  predicate Reflects(l: Local, t: A.TelemetrySpec, kind: Kind) {
    && (CondOf(kind) in l.conds <==> Enabled(t, kind))
    && (Enabled(t, kind) ==> kind in l.seen && l.conds[CondOf(kind)] == ReadyStatus(l.seen[kind]))
  }

  lemma CondOfInjective(kind: Kind, other: Kind)
    ensures CondOf(kind) == CondOf(other) <==> kind == other
    ensures CondOf(kind) in TELEMETRY_CONDS
  {
  }

  /** Removing the condition of a disabled section. */
  lemma RemovedReflects(l: Local, t: A.TelemetrySpec, kind: Kind, w: World)
    requires Tidy(l.conds) && !Enabled(t, kind)
    ensures var r := Local(w, l.conds - {CondOf(kind)}, l.seen);
            && Tidy(r.conds) && Reflects(r, t, kind)
            && (forall other :: other != kind && Reflects(l, t, other) ==> Reflects(r, t, other))
  {
  }

  /** Setting the condition of an enabled section. */
  lemma SetReflects(l: Local, t: A.TelemetrySpec, kind: Kind, w: World, s: CondStatus, seen: map<Kind, Child>)
    requires Tidy(l.conds) && Enabled(t, kind) && seen - {kind} == l.seen - {kind}
    ensures var r := Local(w, l.conds[CondOf(kind) := s], seen);
            && Tidy(r.conds) && (kind in seen && s == ReadyStatus(seen[kind]) ==> Reflects(r, t, kind))
            && (forall other :: other != kind && Reflects(l, t, other) ==> Reflects(r, t, other))
  {
    forall other { CondOfInjective(kind, other); }
    forall other | other != kind && other in l.seen
      ensures other in seen && seen[other] == l.seen[other]
    {
      assert other in l.seen - {kind};
      assert (seen - {kind})[other] == (l.seen - {kind})[other];
    }
  }

  lemma SectionReflects(d: Defaults, o: Oracle, t: A.TelemetrySpec, kind: Kind, l: Local)
    requires Tidy(l.conds)
    ensures var s := Section(d, o, t, kind, l);
            && Tidy(s.local.conds)
            && (!s.failed ==> Reflects(s.local, t, kind))
            && (forall other :: other != kind && Reflects(l, t, other) ==> Reflects(s.local, t, other))
  {
    hide Happen, EnsureDeleted, CreateOrPatch;
    var s := Section(d, o, t, kind, l);
    if Enabled(t, kind) {
      hide Reflects, Tidy;
      assert s.local.seen - {kind} == l.seen - {kind};
      SetReflects(l, t, kind, s.local.world, s.local.conds[CondOf(kind)], s.local.seen);
    } else if !s.failed {
      hide Reflects, Tidy;
      RemovedReflects(l, t, kind, s.local.world);
    }
  }

  lemma SectionsReflect(d: Defaults, o: Oracle, t: A.TelemetrySpec, l: Local)
    requires Tidy(l.conds)
    ensures var s := Sections(d, o, t, ORDER, l);
            && Tidy(s.local.conds)
            && (!s.failed ==> forall kind :: Reflects(s.local, t, kind))
  {
    hide Section, Reflects, Tidy;
    SectionReflects(d, o, t, Autoscalings, l);
    var s1 := Section(d, o, t, Autoscalings, l);
    SectionReflects(d, o, t, Ceilometers, s1.local);
    var s2 := Section(d, o, t, Ceilometers, s1.local);
    SectionReflects(d, o, t, MetricStorages, s2.local);
    SectionsUnroll(d, o, t, l);
  }

  lemma SectionsUnroll(d: Defaults, o: Oracle, t: A.TelemetrySpec, l: Local)
    ensures var s1 := Section(d, o, t, Autoscalings, l);
            var s2 := Section(d, o, t, Ceilometers, s1.local);
            Sections(d, o, t, ORDER, l) ==
              if s1.failed then s1 else if s2.failed then s2 else Section(d, o, t, MetricStorages, s2.local)
  {
  }

  /** A pass over a live, initialised Telemetry. */
  predicate Working(w: World) {
    && w.parent.Some? && w.parent.value.meta.ours && !w.parent.value.meta.deleting
    && w.parent.value.conditions.Some?
  }

  /** A section that is `on` has its condition `x` in the list, which tells whether the
      child that was seen is Ready; one that is not has none. */
  predicate Tells(c: Conds, x: Cond, on: bool, seen: map<Kind, Child>, kind: Kind) {
    && (x in c <==> on)
    && (on ==> kind in seen && (c[x] == True <==> seen[kind].ready))
  }

  /** The list of a Telemetry: one condition per enabled section, and Ready, which is
      their conjunction; with nothing enabled it is True. */
  predicate ReadyList(t: A.TelemetrySpec, c: Conds, seen: map<Kind, Child>) {
    && c.Keys <= {AutoscalingReady, CeilometerReady, MetricStorageReady, Ready}
    && Tells(c, AutoscalingReady, t.autoscalingEnabled, seen, Autoscalings)
    && Tells(c, CeilometerReady, t.ceilometerEnabled, seen, Ceilometers)
    && Tells(c, MetricStorageReady, t.metricStorageEnabled, seen, MetricStorages)
    && Ready in c
    && (c[Ready] == True <==>
          && (t.autoscalingEnabled ==> seen[Autoscalings].ready)
          && (t.ceilometerEnabled ==> seen[Ceilometers].ready)
          && (t.metricStorageEnabled ==> seen[MetricStorages].ready))
  }

  /** After an error-free pass the sub-conditions are exactly those of the enabled
      sections, each True iff its child is Ready as the pass saw it, and Ready is
      their conjunction. */
  lemma ReadyIsConjunction(d: Defaults, o: Oracle, w: World)
    requires !o.fetchFails && Working(w) && Tidy(w.parent.value.conditions.value)
    ensures var out := Pass(d, o, w).2.value;
            out.completed ==> out.conds.Some? && ReadyList(w.parent.value.spec, out.conds.value, out.seen)
  {
    hide Sections, Happen, ParentActs, ReadyList, WithReady;
    var t := w.parent.value.spec;
    var l := Local(w, w.parent.value.conditions.value, map[]);
    SectionsReflect(d, o, t, l);
    var s := Sections(d, o, t, ORDER, l);
    if !s.failed { ReadyOf(s.local, t); }
  }

  /** Unless the patch fails, that list is what is stored. */
  lemma ReadinessIsStored(d: Defaults, o: Oracle, w: World)
    requires !o.fetchFails && Working(w)
    ensures var r := Pass(d, o, w);
            !r.1 && r.0.parent.Some? && NoRecreation(o.parentEnv) ==> r.0.parent.value.conditions == r.2.value.conds
  {
    SectionsSameParent(d, o, w.parent.value.spec, ORDER, Local(w, w.parent.value.conditions.value, map[]));
    if NoRecreation(o.parentEnv) { ParentActsKeepList(w.parent, o.parentEnv); }
    hide Sections, Happen, ParentActs, WithReady;
  }

  /** Users do not delete the parent and create it anew in the middle of the pass. */
  predicate NoRecreation(es: seq<ParentEvent>) {
    forall i :: 0 <= i < |es| ==> !es[i].Recreates?
  }

  lemma {:induction false} ParentActsKeepList(p: Option<Parent>, es: seq<ParentEvent>)
    requires NoRecreation(es)
    ensures var r := ParentActs(p, es); r.Some? ==> p.Some? && r.value.conditions == p.value.conditions
    decreases |es|
  {
    if es != [] {
      assert !es[0].Recreates?;
      ParentActsKeepList(ParentAct(p, es[0]), es[1..]);
    }
  }

  lemma {:induction false} HappenSameParent(d: Defaults, w: World, es: seq<ChildEvent>)
    ensures Happen(d, w, es).parent == w.parent
    decreases |es|
  {
    if es != [] { HappenSameParent(d, Happens(d, w, es[0]), es[1..]); }
  }

  lemma {:induction false} SectionsSameParent(d: Defaults, o: Oracle, t: A.TelemetrySpec, kinds: seq<Kind>, l: Local)
    ensures Sections(d, o, t, kinds, l).local.world.parent == l.world.parent
    decreases |kinds|
  {
    if kinds != [] {
      hide Happen, Applied, Doomed;
      HappenSameParent(d, l.world, o.env(kinds[0]));
      var s := Section(d, o, t, kinds[0], l);
      if !s.failed { SectionsSameParent(d, o, t, kinds[1..], s.local); }
    }
  }

  lemma TidyKind(c: Conds, x: Cond) returns (kind: Kind)
    requires Tidy(c) && x in c && x != Ready
    ensures x == CondOf(kind)
  {
    kind := match x case AutoscalingReady => Autoscalings case CeilometerReady => Ceilometers case _ => MetricStorages;
  }

  lemma ReadyOf(l: Local, t: A.TelemetrySpec)
    requires Tidy(l.conds) && forall kind :: Reflects(l, t, kind)
    ensures ReadyList(t, WithReady(l.conds), l.seen)
  {
    assert Reflects(l, t, Autoscalings) && Reflects(l, t, Ceilometers) && Reflects(l, t, MetricStorages);
    var c := WithReady(l.conds);
    assert AllSubTrue(l.conds) <==>
      && (AutoscalingReady in l.conds ==> l.conds[AutoscalingReady] == True)
      && (CeilometerReady in l.conds ==> l.conds[CeilometerReady] == True)
      && (MetricStorageReady in l.conds ==> l.conds[MetricStorageReady] == True);
  }

  // ---------------------------------------------------------------- independence of the past

  /** What a section does to the world does not depend on the condition list. */
  lemma SectionIgnoresConds(d: Defaults, o: Oracle, t: A.TelemetrySpec, kind: Kind, l: Local, l': Local)
    requires l'.world == l.world && l'.seen == l.seen
    ensures var s, s' := Section(d, o, t, kind, l), Section(d, o, t, kind, l');
            s'.local.world == s.local.world && s'.local.seen == s.local.seen && s'.failed == s.failed
  {
  }

  lemma {:induction false} SectionsIgnoreConds(
    d: Defaults, o: Oracle, t: A.TelemetrySpec, kinds: seq<Kind>, l: Local, l': Local)
    requires l'.world == l.world && l'.seen == l.seen
    ensures var s, s' := Sections(d, o, t, kinds, l), Sections(d, o, t, kinds, l');
            s'.local.world == s.local.world && s'.local.seen == s.local.seen && s'.failed == s.failed
    decreases |kinds|
  {
    if kinds != [] {
      hide Section;
      SectionIgnoresConds(d, o, t, kinds[0], l, l');
      var s, s' := Section(d, o, t, kinds[0], l), Section(d, o, t, kinds[0], l');
      if !s.failed { SectionsIgnoreConds(d, o, t, kinds[1..], s.local, s'.local); }
    }
  }

  /** Two lists that reflect the same sections agree on everything but Ready. */
  lemma SameConds(l: Local, l': Local, t: A.TelemetrySpec, c: Cond)
    requires Tidy(l.conds) && Tidy(l'.conds) && l'.seen == l.seen && c != Ready
    requires forall kind :: Reflects(l, t, kind) && Reflects(l', t, kind)
    ensures c in l.conds <==> c in l'.conds
    ensures c in l.conds && c in l'.conds ==> l.conds[c] == l'.conds[c]
  {
    if c in l.conds || c in l'.conds {
      var kind := TidyKind(if c in l.conds then l.conds else l'.conds, c);
      assert Reflects(l, t, kind) && Reflects(l', t, kind);
    }
  }

  /** Readiness has no memory: error-free sections give the same final list from
      any two condition lists that earlier passes may have left. */
  lemma ReadinessIsHistoryFree(d: Defaults, o: Oracle, t: A.TelemetrySpec, w: World, c: Conds, c': Conds)
    requires Tidy(c) && Tidy(c')
    requires !Sections(d, o, t, ORDER, Local(w, c, map[])).failed
    ensures var r, r' := Sections(d, o, t, ORDER, Local(w, c, map[])), Sections(d, o, t, ORDER, Local(w, c', map[]));
            WithReady(r.local.conds) == WithReady(r'.local.conds)
  {
    hide Sections, Reflects;
    var l, l' := Local(w, c, map[]), Local(w, c', map[]);
    SectionsIgnoreConds(d, o, t, ORDER, l, l');
    SectionsReflect(d, o, t, l);
    SectionsReflect(d, o, t, l');
    var r, r' := Sections(d, o, t, ORDER, l).local, Sections(d, o, t, ORDER, l').local;
    forall x | x != Ready
      ensures x in r.conds <==> x in r'.conds
      ensures x in r.conds && x in r'.conds ==> r.conds[x] == r'.conds[x]
    {
      SameConds(r, r', t, x);
    }
    SameReady(r.conds, r'.conds);
  }

  lemma SameReady(c: Conds, c': Conds)
    requires forall x :: x != Ready ==> (x in c <==> x in c') && (x in c && x in c' ==> c[x] == c'[x])
    ensures WithReady(c) == WithReady(c')
  {
  }

  // ---------------------------------------------------------------- wake-ups

  /** A Telemetry pass that reports no error either ran to completion or left a
      changed object behind, which enqueues it again. */
  lemma TelemetryWakeUp(d: Defaults, o: Oracle, w: World)
    requires Pass(d, o, w).2.Some? && !Pass(d, o, w).1
    ensures var p, r := w.parent.value, Pass(d, o, w);
            || r.2.value.completed
            || (&& r.0.parent.Some?
                && (r.0.parent.value.conditions != p.conditions || r.0.parent.value.meta.ours != p.meta.ours))
  {
    hide Sections, ParentActs;
  }
}
