/** What every run of a Telemetry and its children keeps, and where it ends up once
    the toggling and the failures stop. */
module TelemetryRuns {
  import opened Conditions
  import opened TelemetryParent
  import opened TelemetryReadiness
  import A = Admission

  // ---------------------------------------------------------------- invariants of runs

  /** A child of ours or of nobody, held by no foreign finalizer; if terminating, it
      is there because of our finalizer. */
  predicate SoundChild(c: Child) {
    !c.meta.others && c.owner != Another && (c.meta.deleting ==> c.meta.ours)
  }

  function LastNonNil(copies: seq<Option<A.CustomStack>>): Option<A.CustomStack>
    decreases |copies|
  {
    if copies == [] then None
    else if copies[|copies| - 1].Some? then copies[|copies| - 1]
    else LastNonNil(copies[..|copies| - 1])
  }

  function CustomOf(c: Child): Option<A.CustomStack> {
    if c.spec.StoragePayload? then c.spec.storage.custom else None
  }

  /** The MetricStorage child has the last custom stack that was set. */
  predicate Faithful(w: World) {
    MetricStorages in w.children ==> CustomOf(w.children[MetricStorages]) == LastNonNil(w.copies)
  }

  /** What runs keep: the custom stack and, when asked for, the soundness of all the
      children. */
  predicate Kept(w: World, sound: bool) {
    Faithful(w) && (sound ==> forall kind :: kind in w.children ==> SoundChild(w.children[kind]))
  }

  predicate Sound(w: World) {
    Kept(w, true)
  }

  lemma LastOfOne(c: Option<A.CustomStack>)
    ensures LastNonNil([c]) == c
  {
    assert [c][..0] == [];
  }

  lemma LastOfMore(copies: seq<Option<A.CustomStack>>, c: Option<A.CustomStack>)
    ensures LastNonNil(copies + [c]) == if c.Some? then c else LastNonNil(copies)
  {
    assert (copies + [c])[..|copies|] == copies;
  }

  lemma HappensKeeps(d: Defaults, w: World, e: ChildEvent, sound: bool)
    requires Kept(w, sound)
    ensures Kept(Happens(d, w, e), sound)
  {
    hide LastNonNil;
    var c := Get(w, e.kind);
    if e.UserCreates? && c.None? {
      var admitted := Admit(d, e.spec);
      LastOfOne(if admitted.StoragePayload? then admitted.storage.custom else None);
    }
  }

  lemma {:induction false} HappenKeeps(d: Defaults, w: World, es: seq<ChildEvent>, sound: bool)
    requires Kept(w, sound)
    ensures Kept(Happen(d, w, es), sound) && Happen(d, w, es).parent == w.parent
    decreases |es|
  {
    if es != [] {
      hide Kept;
      HappensKeeps(d, w, es[0], sound);
      HappenKeeps(d, Happens(d, w, es[0]), es[1..], sound);
    }
  }

  lemma EnsureDeletedKeeps(o: Oracle, kind: Kind, w: World, sound: bool)
    requires Kept(w, sound)
    ensures var r := EnsureDeleted(o, kind, w).0; Kept(r, sound) && r.parent == w.parent
  {
    hide LastNonNil;
  }

  lemma AppliedCustom(d: Defaults, t: A.TelemetrySpec, c: Option<Child>)
    ensures CustomOf(Applied(d, t, MetricStorages, c)) ==
            if t.metricStorage.custom.Some? then t.metricStorage.custom else if c.Some? then CustomOf(c.value) else None
  {
  }

  lemma ApplyKeeps(d: Defaults, t: A.TelemetrySpec, kind: Kind, w: World, sound: bool)
    requires Kept(w, sound)
    ensures var r := Apply(d, t, kind, w); Kept(r, sound) && r.parent == w.parent
  {
    hide LastNonNil, CopyInto, Admit, CustomOf;
    AppliedCustom(d, t, Get(w, kind));
    LastOfOne(t.metricStorage.custom);
    LastOfMore(w.copies, t.metricStorage.custom);
  }

  lemma SectionKeeps(d: Defaults, o: Oracle, t: A.TelemetrySpec, kind: Kind, l: Local, sound: bool)
    requires Kept(l.world, sound)
    ensures var r := Section(d, o, t, kind, l).local.world; Kept(r, sound) && r.parent == l.world.parent
  {
    hide Kept, Happen, EnsureDeleted, Apply, Applied;
    HappenKeeps(d, l.world, o.env(kind), sound);
    var w := Happen(d, l.world, o.env(kind));
    EnsureDeletedKeeps(o, kind, w, sound);
    ApplyKeeps(d, t, kind, w, sound);
  }

  lemma {:induction false} SectionsKeep(
    d: Defaults, o: Oracle, t: A.TelemetrySpec, kinds: seq<Kind>, l: Local, sound: bool)
    requires Kept(l.world, sound)
    ensures var r := Sections(d, o, t, kinds, l).local.world; Kept(r, sound) && r.parent == l.world.parent
    decreases |kinds|
  {
    if kinds != [] {
      hide Kept, Section;
      SectionKeeps(d, o, t, kinds[0], l, sound);
      var s := Section(d, o, t, kinds[0], l);
      if !s.failed { SectionsKeep(d, o, t, kinds[1..], s.local, sound); }
    }
  }

  lemma PassKeeps(d: Defaults, o: Oracle, w: World, sound: bool)
    requires Kept(w, sound)
    ensures Kept(Pass(d, o, w).0, sound)
  {
    hide Sections, ParentActs, Patched, PatchFails, LastNonNil, SoundChild;
    if w.parent.Some? && w.parent.value.conditions.Some? {
      var p := w.parent.value;
      SectionsKeep(d, o, p.spec, ORDER, Local(w, p.conditions.value, map[]), sound);
    }
  }

  /** Every run keeps the custom stack the last one set, and the children sound if they
      were. */
  lemma {:induction false} RunKeeps(d: Defaults, w: World, es: seq<Event>, sound: bool)
    requires Kept(w, sound)
    ensures Kept(Exec(d, w, es), sound)
    decreases |es|
  {
    if es != [] {
      hide Pass, Happens, LastNonNil, SoundChild;
      match es[0] {
        case ParentPass(o) => PassKeeps(d, o, w, sound);
        case OnParent(p) =>
        case OnChild(c) => HappensKeeps(d, w, c, sound);
      }
      RunKeeps(d, Exec1(d, w, es[0]), es[1..], sound);
    }
  }

  /** Every run keeps the children sound and the custom stack the last one set. */
  lemma RunSound(d: Defaults, w: World, es: seq<Event>)
    requires Sound(w)
    ensures Sound(Exec(d, w, es))
  {
    hide Exec, Kept;
    RunKeeps(d, w, es, true);
  }

  /** The condition list that is stored stays one that passes build. */
  predicate TidyParent(p: Option<Parent>) {
    p.Some? && p.value.conditions.Some? ==> Tidy(p.value.conditions.value)
  }

  lemma {:induction false} ParentActsTidy(p: Option<Parent>, es: seq<ParentEvent>)
    requires TidyParent(p)
    ensures TidyParent(ParentActs(p, es))
    decreases |es|
  {
    if es != [] { ParentActsTidy(ParentAct(p, es[0]), es[1..]); }
  }

  lemma FinishTidy(o: Oracle, before: Parent, ours: bool, conds: Option<Conds>, seen: map<Kind, Child>,
                   w: World, failed: bool, completed: bool)
    requires TidyParent(w.parent) && (conds.Some? ==> Tidy(conds.value))
    ensures TidyParent(Finish(o, before, ours, conds, seen, w, failed, completed).world.parent)
  {
    ParentActsTidy(w.parent, o.parentEnv);
    hide ParentActs;
  }

  lemma PassTidy(d: Defaults, o: Oracle, w: World)
    requires TidyParent(w.parent)
    ensures TidyParent(Pass(d, o, w).0.parent)
  {
    hide Sections, Finish, Tidy;
    if !o.fetchFails && w.parent.Some? {
      var p := w.parent.value;
      if !p.meta.deleting && !p.meta.ours {
        FinishTidy(o, p, true, p.conditions, map[], w, false, false);
      } else if p.conditions.None? {
        FreshTidy();
        FinishTidy(o, p, p.meta.ours, Some(AllUnknown(TELEMETRY_CONDS)), map[], w, false, false);
      } else if p.meta.deleting {
        FinishTidy(o, p, false, p.conditions, map[], w, false, true);
      } else {
        var l := Local(w, p.conditions.value, map[]);
        SectionsReflect(d, o, p.spec, l);
        SectionsSameParent(d, o, p.spec, ORDER, l);
        var s := Sections(d, o, p.spec, ORDER, l);
        FinishTidy(o, p, true, Some(s.local.conds), s.local.seen, s.local.world, s.failed, !s.failed);
      }
    }
  }

  lemma FreshTidy()
    ensures Tidy(AllUnknown(TELEMETRY_CONDS))
  {
  }

  /** So the readiness theorems of module TelemetryReadiness apply in every run. */
  lemma {:induction false} RunTidy(d: Defaults, w: World, es: seq<Event>)
    requires TidyParent(w.parent)
    ensures TidyParent(Exec(d, w, es).parent)
    decreases |es|
  {
    if es != [] {
      hide Pass, Happens, Tidy;
      match es[0] {
        case ParentPass(o) => PassTidy(d, o, w);
        case OnParent(p) => ParentActsTidy(w.parent, [p]);
          assert ParentActs(w.parent, [p]) == ParentAct(w.parent, p);
        case OnChild(c) => HappensSameParent(d, w, c);
      }
      RunTidy(d, Exec1(d, w, es[0]), es[1..]);
    }
  }

  lemma HappensSameParent(d: Defaults, w: World, e: ChildEvent)
    ensures Happens(d, w, e).parent == w.parent
  {
  }
}
