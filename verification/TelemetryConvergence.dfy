/** Parent and children agree once toggling and failures stop. */
module TelemetryConvergence {
  import opened Conditions
  import opened TelemetryParent
  import opened TelemetryReadiness
  import opened TelemetryRuns
  import A = Admission
  import B = Builders

  // ---------------------------------------------------------------- calm parent passes

  /** No call of the parent fails, nobody edits it, and in the middle of its pass
      nothing happens to the children but their own passes, failing or not. */
  ghost predicate CalmParent(o: Oracle) {
    && !o.fetchFails && o.patchMeta && o.patchStatus && o.parentEnv == []
    && (forall kind :: !o.getFails(kind) && !o.deleteFails(kind) && !o.applyFails(kind))
    && (forall kind, i :: 0 <= i < |o.env(kind)| ==> o.env(kind)[i].Passes?)
  }

  /** And not even that happens. */
  ghost predicate AtomicParent(o: Oracle) {
    CalmParent(o) && forall kind :: o.env(kind) == []
  }

  /** What a calm parent pass does to one child. */
  function ParentStep(d: Defaults, t: A.TelemetrySpec, kind: Kind, c: Option<Child>): Option<Child> {
    if Enabled(t, kind) then Some(Applied(d, t, kind, c))
    else if c.None? || c.value.meta.deleting then c
    else Doomed(c.value)
  }

  lemma SoundOwner(w: World, kind: Kind)
    requires Sound(w)
    ensures kind in w.children ==> SoundChild(w.children[kind])
  {
  }

  /** A section that meets no failure: the child of its kind makes its step from where
      the events before the section left it. */
  lemma CalmSection(d: Defaults, o: Oracle, t: A.TelemetrySpec, kind: Kind, l: Local)
    requires CalmParent(o) && Sound(l.world)
    ensures var s := Section(d, o, t, kind, l);
            var w := Happen(d, l.world, o.env(kind));
            && Sound(w) && !s.failed && s.local.world.parent == l.world.parent
            && Get(s.local.world, kind) == ParentStep(d, t, kind, Get(w, kind))
            && (forall other :: other != kind ==> Get(s.local.world, other) == Get(w, other))
            && Sound(s.local.world)
  {
    hide Kept, Happen;
    SectionKeeps(d, o, t, kind, l, true);
    HappenKeeps(d, l.world, o.env(kind), true);
    CalmStep(d, o, t, kind, l);
  }

  lemma CalmStep(d: Defaults, o: Oracle, t: A.TelemetrySpec, kind: Kind, l: Local)
    requires CalmParent(o) && Sound(Happen(d, l.world, o.env(kind)))
    ensures var s := Section(d, o, t, kind, l);
            var w := Happen(d, l.world, o.env(kind));
            && !s.failed
            && Get(s.local.world, kind) == ParentStep(d, t, kind, Get(w, kind))
            && (forall other :: other != kind ==> Get(s.local.world, other) == Get(w, other))
  {
    SoundOwner(Happen(d, l.world, o.env(kind)), kind);
    hide Kept, Applied, Doomed, Happen;
  }

  lemma AtomicSections(d: Defaults, o: Oracle, t: A.TelemetrySpec, l: Local, kind: Kind)
    requires AtomicParent(o) && Sound(l.world)
    ensures var s := Sections(d, o, t, ORDER, l);
            && !s.failed && s.local.world.parent == l.world.parent
            && Get(s.local.world, kind) == ParentStep(d, t, kind, Get(l.world, kind))
  {
    assert forall k, w :: Happen(d, w, o.env(k)) == w;
    hide Section, Sections, Kept, ParentStep, Get, Happen;
    SectionsUnroll(d, o, t, l);
    CalmSection(d, o, t, Autoscalings, l);
    var s1 := Section(d, o, t, Autoscalings, l).local;
    CalmSection(d, o, t, Ceilometers, s1);
    var s2 := Section(d, o, t, Ceilometers, s1).local;
    CalmSection(d, o, t, MetricStorages, s2);
  }

  /** An undisturbed calm pass of a working parent: it keeps working on the same spec,
      and every child makes its step. */
  lemma CalmParentPass(d: Defaults, o: Oracle, w: World, kind: Kind)
    requires AtomicParent(o) && Working(w) && Sound(w)
    ensures var r := Pass(d, o, w).0;
            && Working(r) && r.parent.value.spec == w.parent.value.spec
            && Get(r, kind) == ParentStep(d, w.parent.value.spec, kind, Get(w, kind))
  {
    hide Sections, Kept, ParentStep;
    var p := w.parent.value;
    AtomicSections(d, o, p.spec, Local(w, p.conditions.value, map[]), kind);
  }

  // ---------------------------------------------------------------- the measure

  /** The number of rounds that a child is away from its goal. */
  function Rank(enabled: bool, c: Option<Child>): nat {
    if c.None? then (if enabled then 1 else 0)
    else if c.value.meta.deleting then (if enabled then 2 else 1) + (if c.value.initialised then 0 else 1)
    else if enabled then 0
    else if !c.value.meta.ours then 4
    else if c.value.initialised then 2 else 3
  }

  /** Whether the next progress is up to the child or to the parent. */
  predicate UpToChild(c: Option<Child>) {
    c.Some? && c.value.meta.deleting
  }

  lemma ParentStepRank(d: Defaults, t: A.TelemetrySpec, kind: Kind, c: Option<Child>)
    requires c.Some? ==> SoundChild(c.value)
    ensures var e := Enabled(t, kind);
            var r := ParentStep(d, t, kind, c);
            && Rank(e, r) <= Rank(e, c)
            && (Rank(e, c) > 0 && !UpToChild(c) ==> Rank(e, r) < Rank(e, c))
            && (Rank(e, r) == Rank(e, c) ==> UpToChild(r) == UpToChild(c))
  {
  }

  lemma ChildPassRank(e: bool, c: Child, x: Effect)
    requires SoundChild(c)
    ensures var r := ChildPass(c, x);
            && Rank(e, r) <= Rank(e, Some(c))
            && (UpToChild(Some(c)) && GoesThrough(x) ==> Rank(e, r) < Rank(e, Some(c)))
            && (Rank(e, r) == Rank(e, Some(c)) ==> UpToChild(r) == UpToChild(Some(c)))
  {
  }

  /** From `c` to `r` a child did not get further away from its goal, and got closer if
      it was the parent's turn and the parent made its step. */
  predicate Closer(e: bool, c: Option<Child>, r: Option<Child>, parent: bool) {
    && Rank(e, r) <= Rank(e, c)
    && (Rank(e, r) == Rank(e, c) ==> UpToChild(r) == UpToChild(c))
    && (parent && Rank(e, c) > 0 && !UpToChild(c) ==> Rank(e, r) < Rank(e, c))
  }

  lemma CloserYet(e: bool, c: Option<Child>, r: Option<Child>, q: Option<Child>, p1: bool, p2: bool)
    requires Closer(e, c, r, p1) && Closer(e, r, q, p2)
    ensures Closer(e, c, q, p1 || p2)
  {
    hide Rank, UpToChild;
  }

  // ---------------------------------------------------------------- passes in the middle of a parent pass

  lemma ChildEventCloser(d: Defaults, w: World, e: ChildEvent, kind: Kind, on: bool)
    requires Sound(w) && e.Passes?
    ensures var r := Happens(d, w, e);
            && Sound(r) && r.parent == w.parent
            && Closer(on, Get(w, kind), Get(r, kind), false)
            && (e.kind == kind && GoesThrough(e.effect) && UpToChild(Get(w, kind)) ==>
                  Rank(on, Get(r, kind)) < Rank(on, Get(w, kind)))
  {
    HappensKeeps(d, w, e, true);
    SoundOwner(w, kind);
    hide Kept, ChildPass, Rank, UpToChild;
    if e.kind != kind {
      assert Get(Happens(d, w, e), kind) == Get(w, kind);
    } else if Get(w, kind).Some? {
      ChildPassRank(on, Get(w, kind).value, e.effect);
    }
  }

  lemma {:induction false} HappenCloser(d: Defaults, w: World, es: seq<ChildEvent>, kind: Kind, on: bool)
    requires Sound(w) && forall i :: 0 <= i < |es| ==> es[i].Passes?
    ensures Closer(on, Get(w, kind), Get(Happen(d, w, es), kind), false)
    decreases |es|
  {
    if es != [] {
      hide Kept, Happens, Closer, Get;
      ChildEventCloser(d, w, es[0], kind, on);
      var w1 := Happens(d, w, es[0]);
      HappenCloser(d, w1, es[1..], kind, on);
      CloserYet(on, Get(w, kind), Get(w1, kind), Get(Happen(d, w1, es[1..]), kind), false, false);
    } else {
      StaysPut(on, Get(w, kind));
    }
  }

  lemma StaysPut(e: bool, c: Option<Child>)
    ensures Closer(e, c, c, false)
  {
  }

  /** One section of a calm parent pass, for the child of any kind. */
  lemma SectionCloser(d: Defaults, o: Oracle, t: A.TelemetrySpec, section: Kind, l: Local, kind: Kind)
    requires CalmParent(o) && Sound(l.world)
    ensures var s := Section(d, o, t, section, l);
            && Sound(s.local.world) && !s.failed && s.local.world.parent == l.world.parent
            && Closer(Enabled(t, kind), Get(l.world, kind), Get(s.local.world, kind), section == kind)
  {
    hide Kept, Happen, Closer, Section, ParentStep, Rank;
    CalmSection(d, o, t, section, l);
    HappenCloser(d, l.world, o.env(section), kind, Enabled(t, kind));
    var w := Happen(d, l.world, o.env(section));
    if section == kind {
      SoundOwner(w, kind);
      ParentStepCloser(d, t, kind, Get(w, kind));
      CloserYet(Enabled(t, kind), Get(l.world, kind), Get(w, kind), ParentStep(d, t, kind, Get(w, kind)), false, true);
    }
  }

  lemma ParentStepCloser(d: Defaults, t: A.TelemetrySpec, kind: Kind, c: Option<Child>)
    requires c.Some? ==> SoundChild(c.value)
    ensures Closer(Enabled(t, kind), c, ParentStep(d, t, kind, c), true)
  {
    hide Rank, ParentStep;
    ParentStepRank(d, t, kind, c);
  }

  lemma SectionsCloser(d: Defaults, o: Oracle, t: A.TelemetrySpec, l: Local, kind: Kind)
    requires CalmParent(o) && Sound(l.world)
    ensures var s := Sections(d, o, t, ORDER, l);
            && Sound(s.local.world) && !s.failed && s.local.world.parent == l.world.parent
            && Closer(Enabled(t, kind), Get(l.world, kind), Get(s.local.world, kind), true)
  {
    hide Section, Sections, Kept, Closer, Get;
    var on := Enabled(t, kind);
    SectionsUnroll(d, o, t, l);
    SectionCloser(d, o, t, Autoscalings, l, kind);
    var s1 := Section(d, o, t, Autoscalings, l).local;
    SectionCloser(d, o, t, Ceilometers, s1, kind);
    var s2 := Section(d, o, t, Ceilometers, s1).local;
    SectionCloser(d, o, t, MetricStorages, s2, kind);
    var s3 := Section(d, o, t, MetricStorages, s2).local;
    CloserYet(on, Get(l.world, kind), Get(s1.world, kind), Get(s2.world, kind),
              kind == Autoscalings, kind == Ceilometers);
    CloserYet(on, Get(l.world, kind), Get(s2.world, kind), Get(s3.world, kind),
              kind == Autoscalings || kind == Ceilometers, kind == MetricStorages);
  }

  /** A calm parent pass, with passes of the children in its middle: the parent keeps
      working on the same spec and every child gets closer to its goal. */
  lemma CalmPassCloser(d: Defaults, o: Oracle, w: World, kind: Kind)
    requires CalmParent(o) && Ok(w)
    ensures var r := Pass(d, o, w).0;
            && Ok(r) && r.parent.value.spec == w.parent.value.spec
            && Closer(Enabled(w.parent.value.spec, kind), Get(w, kind), Get(r, kind), true)
  {
    PassKeeps(d, o, w, true);
    hide Sections, Kept, Closer;
    var p := w.parent.value;
    SectionsCloser(d, o, p.spec, Local(w, p.conditions.value, map[]), kind);
  }

  // ---------------------------------------------------------------- fair rounds

  /** What still happens once toggling and the failures of the parent have stopped:
      the children pass, and some of their passes may go on failing. */
  ghost predicate CalmEvent(e: Event) {
    || (e.ParentPass? && CalmParent(e.o))
    || (e.OnChild? && e.c.Passes?)
  }

  predicate Helps(e: Event, kind: Kind, upToChild: bool) {
    if upToChild then e.OnChild? && e.c.Passes? && e.c.kind == kind && GoesThrough(e.c.effect) else e.ParentPass?
  }

  /** A stretch of calm events, in any order, in which the parent gets a pass at least
      once and the child gets a pass that goes through at least once. */
  ghost predicate FairRound(es: seq<Event>, kind: Kind) {
    && (forall i :: 0 <= i < |es| ==> CalmEvent(es[i]))
    && (exists i :: 0 <= i < |es| && Helps(es[i], kind, true))
    && (exists i :: 0 <= i < |es| && Helps(es[i], kind, false))
  }

  predicate Ok(w: World) {
    Sound(w) && Working(w)
  }

  /** One calm event never moves a child away from its goal. */
  lemma EventRank(d: Defaults, w: World, e: Event, kind: Kind)
    requires Ok(w) && CalmEvent(e)
    ensures var r := Exec1(d, w, e);
            var on := Enabled(w.parent.value.spec, kind);
            && Ok(r) && r.parent.value.spec == w.parent.value.spec
            && Rank(on, Get(r, kind)) <= Rank(on, Get(w, kind))
            && (Rank(on, Get(w, kind)) > 0 && Helps(e, kind, UpToChild(Get(w, kind))) ==>
                  Rank(on, Get(r, kind)) < Rank(on, Get(w, kind)))
            && (Rank(on, Get(r, kind)) == Rank(on, Get(w, kind)) ==> UpToChild(Get(r, kind)) == UpToChild(Get(w, kind)))
  {
    hide Pass, Happens, Kept, Rank, Get;
    if e.ParentPass? {
      CalmPassCloser(d, e.o, w, kind);
    } else {
      ChildEventCloser(d, w, e.c, kind, Enabled(w.parent.value.spec, kind));
    }
  }

  /** A stretch that contains a helping pass brings the child closer. */
  lemma {:induction false} Drain(d: Defaults, w: World, es: seq<Event>, kind: Kind)
    requires Ok(w) && forall i :: 0 <= i < |es| ==> CalmEvent(es[i])
    ensures var r := Exec(d, w, es);
            var on := Enabled(w.parent.value.spec, kind);
            && Ok(r) && r.parent.value.spec == w.parent.value.spec
            && Rank(on, Get(r, kind)) <= Rank(on, Get(w, kind))
            && (Rank(on, Get(w, kind)) > 0
                && (exists i :: 0 <= i < |es| && Helps(es[i], kind, UpToChild(Get(w, kind)))) ==>
                  Rank(on, Get(r, kind)) < Rank(on, Get(w, kind)))
    decreases |es|
  {
    if es != [] {
      hide Ok, Exec1, Rank, UpToChild, Helps, CalmEvent, Enabled;
      EventRank(d, w, es[0], kind);
      var w1 := Exec1(d, w, es[0]);
      Drain(d, w1, es[1..], kind);
      assert forall i :: 0 < i < |es| ==> es[i] == es[1..][i - 1];
    }
  }

  function ExecRounds(d: Defaults, w: World, rounds: seq<seq<Event>>): World
    decreases |rounds|
  {
    if rounds == [] then w else ExecRounds(d, Exec(d, w, rounds[0]), rounds[1..])
  }

  /** Each fair round takes at least one off the rank. */
  lemma {:induction false} RoundsDrain(d: Defaults, w: World, rounds: seq<seq<Event>>, kind: Kind)
    requires Ok(w) && forall i :: 0 <= i < |rounds| ==> FairRound(rounds[i], kind)
    ensures var r := ExecRounds(d, w, rounds);
            var on := Enabled(w.parent.value.spec, kind);
            && Ok(r) && r.parent.value.spec == w.parent.value.spec
            && (Rank(on, Get(r, kind)) == 0 || Rank(on, Get(r, kind)) + |rounds| <= Rank(on, Get(w, kind)))
    decreases |rounds|
  {
    if rounds != [] {
      hide Ok, Exec, Rank, Helps, CalmEvent, Enabled;
      assert FairRound(rounds[0], kind);
      Drain(d, w, rounds[0], kind);
      RoundsDrain(d, Exec(d, w, rounds[0]), rounds[1..], kind);
    }
  }

  /** The child is there and not terminating exactly when its section is enabled,
      and gone when it is disabled. */
  predicate Agrees(w: World, kind: Kind)
    requires w.parent.Some?
  {
    var c := Get(w, kind);
    if Enabled(w.parent.value.spec, kind) then c.Some? && !c.value.meta.deleting else c.None?
  }

  /** Convergence: after any run of passes, failures, toggles and user actions, any
      four fair rounds bring every child to its goal, including one that was still
      terminating when it was enabled again; and further rounds keep it there. */
  lemma ParentChildConverges(d: Defaults, w: World, past: seq<Event>, rounds: seq<seq<Event>>, kind: Kind)
    requires Sound(w) && Working(Exec(d, w, past))
    requires |rounds| >= 4 && forall i :: 0 <= i < |rounds| ==> FairRound(rounds[i], kind)
    ensures var r := ExecRounds(d, Exec(d, w, past), rounds);
            && Working(r) && r.parent.value.spec == Exec(d, w, past).parent.value.spec
            && Agrees(r, kind)
  {
    hide Exec, ExecRounds, FairRound, Sound;
    RunSound(d, w, past);
    RoundsDrain(d, Exec(d, w, past), rounds, kind);
    RankBounds(Enabled(Exec(d, w, past).parent.value.spec, kind), Get(Exec(d, w, past), kind));
  }

  lemma RankBounds(e: bool, c: Option<Child>)
    ensures Rank(e, c) <= 4
    ensures Rank(e, c) == 0 <==> if e then c.Some? && !c.value.meta.deleting else c.None?
  {
  }

  // ---------------------------------------------------------------- stored specs settle

  /** The step of the parent is idempotent: the child's webhook undoes nothing and
      the next copy changes nothing. */
  lemma ParentStepIdempotent(d: Defaults, t: A.TelemetrySpec, kind: Kind, c: Option<Child>)
    ensures var r := ParentStep(d, t, kind, c); ParentStep(d, t, kind, r) == r
  {
    if Enabled(t, kind) && kind == MetricStorages {
      var existing := if c.Some? && c.value.spec.StoragePayload? then c.value.spec.storage else NO_STORAGE;
      A.MetricStorageSettles(t.metricStorage, existing);
    }
  }

  /** Repeated passes over an unchanged Telemetry leave every child as it is. */
  lemma PassesSettle(d: Defaults, o: Oracle, w: World, kind: Kind)
    requires AtomicParent(o) && Ok(w)
    ensures var r := Pass(d, o, w).0; Get(Pass(d, o, r).0, kind) == Get(r, kind)
  {
    hide Pass, Kept, ParentStep;
    PassKeeps(d, o, w, true);
    CalmParentPass(d, o, w, kind);
    CalmParentPass(d, o, Pass(d, o, w).0, kind);
    ParentStepIdempotent(d, w.parent.value.spec, kind, Get(w, kind));
  }

  // ---------------------------------------------------------------- the custom stack

  /** The spec from which a MetricStorage pass builds its stack. */
  function StorageOf(c: Child): A.MetricStorageSpec {
    if c.spec.StoragePayload? then c.spec.storage else NO_STORAGE
  }

  /** In every run, the MetricStorage child is built from a custom stack exactly when
      the last non-nil custom stack handed to it since its creation is not empty,
      and then from that very stack. */
  lemma CustomStackHistory(d: Defaults, w: World, es: seq<Event>, parse: B.Quantities)
    requires Faithful(w) && MetricStorages in Exec(d, w, es).children
    ensures var r := Exec(d, w, es);
            var spec := StorageOf(r.children[MetricStorages]);
            var last := LastNonNil(r.copies);
            && spec.custom == last
            && (B.UsesCustom(spec) <==> last.Some? && last.value != A.EMPTY_CUSTOM_STACK)
            && (B.UsesCustom(spec) ==> B.Build(spec, parse) == B.Ok(B.FromCustom(last.value)))
  {
    hide Exec, LastNonNil;
    RunKeeps(d, w, es, false);
  }

  /** So a custom stack stays in use through any copy that leaves it unset, and ends
      exactly with a copy that is set and empty. */
  lemma CustomStackSticks(d: Defaults, t: A.TelemetrySpec, c: Child)
    requires B.UsesCustom(StorageOf(c))
    ensures var r := StorageOf(Applied(d, t, MetricStorages, Some(c)));
            B.UsesCustom(r) <==> t.metricStorage.custom != Some(A.EMPTY_CUSTOM_STACK)
  {
  }
}
