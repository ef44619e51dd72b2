/** The passes of the three child controllers, seen by their parent: module
    TelemetryParent knows a child only by its metadata, by whether it is initialised
    and by whether it is Ready. Failing passes are included. */
module ChildRefinement {
  import opened Conditions
  import opened Cluster
  import opened Stages
  import opened Safety
  import opened Programs
  import opened Convergence
  import I = Instances
  import T = TelemetryParent
  import W = Watches

  function Seen(s: Store, owner: T.Owner, spec: T.Payload): Option<T.Child> {
    if s.cr.None? then None
    else
      var st := s.cr.value.status;
      Some(T.Child(s.cr.value.meta, st.conditions.Some?, IsTrue(st.conditions, Ready), owner, spec))
  }

  predicate IsReady(s: Store) {
    s.cr.Some? && IsTrue(s.cr.value.status.conditions, Ready)
  }

  /** The API server has removed every object that is marked for deletion and has no
      finalizer left. */
  predicate Stored(s: Store) {
    s.cr.Some? ==> Settle(s.cr.value.meta).Some?
  }

  /** The parent's view of the child makes the step that module TelemetryParent gives
      to a child pass with this effect. */
  predicate Refines(s: Store, r: Store, x: T.Effect, owner: T.Owner, spec: T.Payload) {
    Seen(r, owner, spec) == if s.cr.None? then None else T.ChildPass(Seen(s, owner, spec).value, x)
  }

  // ---------------------------------------------------------------- interference

  /** Interference that leaves the metadata and the status of the resource alone. The
      rest are events of their own in module TelemetryParent. */
  predicate Harmless(a: EnvAction) {
    a.Foreign? || a.WorkloadRemoved? || a.UserEdit?
  }

  predicate AllHarmless(actions: seq<EnvAction>) {
    forall i :: 0 <= i < |actions| ==> Harmless(actions[i])
  }

  ghost predicate Unmeddled(o: Oracle) {
    forall st :: AllHarmless(o.env(st))
  }

  predicate SameView(a: Option<Resource>, b: Option<Resource>) {
    if a.None? || b.None? then a == b
    else a.value.uid == b.value.uid && a.value.meta == b.value.meta && a.value.status == b.value.status
  }

  lemma {:induction false} ActsHarmless(s: Store, actions: seq<EnvAction>)
    requires AllHarmless(actions)
    ensures SameView(Acts(s, actions).cr, s.cr)
    decreases |actions|
  {
    if actions != [] {
      assert Harmless(actions[0]);
      ActsHarmless(Act(s, actions[0]), actions[1..]);
    }
  }

  lemma {:induction false} RunHarmless(k: Reconciler, o: Oracle, p: Program, l: Local)
    requires Unmeddled(o)
    ensures SameView(Run(k, o, p, l).local.store.cr, l.store.cr)
    decreases p
  {
    if p.Then? {
      hide Judge, Acts;
      ActsHarmless(l.store, o.env(p.head));
      var f := Step(k, o, p.head, l);
      if f.Next? { RunHarmless(k, o, p.tail, f.local); }
    }
  }

  // ---------------------------------------------------------------- what a run leaves in memory

  lemma JudgeInputKeepsList(k: Reconciler, o: Oracle, st: Stage, spec: Spec, m: Memo)
    requires m.status.conditions.Some? && BeforeGate(st)
    ensures JudgeInput(k, o, st, spec, m).memo.status.conditions.Some?
  {
    hide Lookup, RbacPart, RenderInputOf;
  }

  lemma JudgeInitKeepsList(k: Reconciler, o: Oracle, st: Stage, m: Memo)
    requires m.status.conditions.Some? && InInit(st)
    ensures JudgeInit(k, o, st, m).memo.status.conditions.Some?
  {
  }

  lemma JudgeDeployKeepsList(k: Reconciler, o: Oracle, st: Stage, m: Memo)
    requires m.status.conditions.Some?
    ensures JudgeDeploy(k, o, st, m).memo.status.conditions.Some?
  {
  }

  lemma JudgeKeepsList(k: Reconciler, o: Oracle, st: Stage, spec: Spec, m: Memo)
    requires m.status.conditions.Some?
    ensures Judge(k, o, st, spec, m).memo.status.conditions.Some?
  {
    hide JudgeInput, JudgeInit, JudgeDeploy;
    if BeforeGate(st) {
      JudgeInputKeepsList(k, o, st, spec, m);
    } else if InInit(st) {
      JudgeInitKeepsList(k, o, st, m);
    } else {
      JudgeDeployKeepsList(k, o, st, m);
    }
  }

  lemma {:induction false} RunKeepsList(k: Reconciler, o: Oracle, p: Program, l: Local)
    requires l.memo.status.conditions.Some?
    ensures Run(k, o, p, l).local.memo.status.conditions.Some?
    decreases p
  {
    if p.Then? {
      hide Judge;
      JudgeKeepsList(k, o, p.head, l.spec, l.memo);
      var f := Step(k, o, p.head, l);
      if f.Next? { RunKeepsList(k, o, p.tail, f.local); }
    }
  }

  /** A deletion program whose last stage, and no other, drops the finalizer. */
  predicate DropsLast(p: Program) {
    p.Then? && if p.tail.End? then p.head.DropFinalizer? else !p.head.DropFinalizer? && DropsLast(p.tail)
  }

  lemma {:induction false} RunDropsLast(k: Reconciler, o: Oracle, p: Program, l: Local)
    requires DropsLast(p)
    ensures var f := Run(k, o, p, l);
            f.local.meta == if f.Next? then l.meta.(ours := false) else l.meta
    decreases p
  {
    if !p.tail.End? {
      hide Judge;
      var f := Step(k, o, p.head, l);
      if f.Next? { RunDropsLast(k, o, p.tail, f.local); }
    }
  }

  /** The view of an object after a deferred patch of the parts that were accepted. */
  function ViewAfter(meta: Meta, conds: Option<Conds>, ours: bool, after: Option<Conds>, x: T.Effect,
                     owner: T.Owner, spec: T.Payload): Option<T.Child>
  {
    var m := if x.meta then meta.(ours := ours) else meta;
    var c := if x.status then after else conds;
    if m != meta && Settle(m).None? then None else Some(T.Child(m, c.Some?, IsTrue(c, Ready), owner, spec))
  }

  /** What the deferred write makes of the stored resource. */
  lemma PatchView(o: Oracle, before: Resource, ours: bool, status: Status, s: Store, x: T.Effect,
                  owner: T.Owner, spec: T.Payload)
    requires SameView(s.cr, Some(before)) && x.meta == o.patchMeta && x.status == o.patchStatus
    ensures Seen(Patched(o, before, ours, status, s), owner, spec) ==
            ViewAfter(before.meta, before.status.conditions, ours, status.conditions, x, owner, spec)
  {
    hide IsTrue;
  }

  /** What a pass has in memory at its end makes, once patched, a child pass. */
  lemma ViewIsChildPass(meta: Meta, conds: Option<Conds>, ours: bool, after: Option<Conds>, x: T.Effect,
                        owner: T.Owner, spec: T.Payload)
    requires Settle(meta).Some?
    requires if !meta.deleting && !meta.ours then ours && (after.Some? <==> conds.Some? || x.nilReady)
             else after.Some? && ours == (meta.ours && !(meta.deleting && conds.Some? && x.finishes))
    requires x.status && ViewAfter(meta, conds, ours, after, x, owner, spec).Some? ==> x.ready == IsTrue(after, Ready)
    ensures ViewAfter(meta, conds, ours, after, x, owner, spec) ==
            T.ChildPass(T.Child(meta, conds.Some?, IsTrue(conds, Ready), owner, spec), x)
  {
    hide IsTrue;
  }

  // ---------------------------------------------------------------- refinement

  predicate InDeletion(s: Store) {
    s.cr.Some? && s.cr.value.meta.deleting && s.cr.value.status.conditions.Some?
  }

  /** The effect of a pass: that of its patch, or nothing when the read fails. */
  function EffectOf(k: Reconciler, o: Oracle, s: Store): T.Effect {
    var read := !o.reply(Fetch).err.Other?;
    var s1 := Acts(s, o.env(Fetch));
    T.Effect(read && o.patchMeta, read && o.patchStatus,
             InDeletion(s1) ==> Run(k, o, k.delete, Begin(s1, s1.cr.value)).Next?,
             o.nilReady, IsReady(Reconcile(k, o, s)))
  }

  /** What a pass has in memory when it comes to the deferred write. */
  lemma BodyView(k: Reconciler, o: Oracle, s: Store, cr: Resource, deps: set<Dependent>)
    requires Unmeddled(o) && s.cr == Some(cr) && Disciplined(k, deps) && DropsLast(k.delete)
    ensures var l := Body(k, o, s, cr).local;
            && SameView(l.store.cr, s.cr)
            && if AddsFinalizer(cr) then l.meta == cr.meta.(ours := true) && l.memo.status == cr.status
               else
                 && l.memo.status.conditions.Some?
                 && l.meta == if InDeletion(s) && Run(k, o, k.delete, Begin(s, cr)).Next?
                              then cr.meta.(ours := false) else cr.meta
  {
    hide Run, Live, LetsGo, DropsLast, AllUnknown;
    if !AddsFinalizer(cr) && cr.status.conditions.Some? {
      var p := ProgramOf(k, o, cr);
      RunHarmless(k, o, p, Begin(s, cr));
      RunKeepsList(k, o, p, Begin(s, cr));
      if cr.meta.deleting {
        RunDropsLast(k, o, p, Begin(s, cr));
      } else {
        LiveShape(p, deps, false);
        RunSameMeta(k, o, p, Begin(s, cr), deps);
      }
    }
  }

  lemma SameViewTransitive(a: Option<Resource>, b: Option<Resource>, c: Option<Resource>)
    requires SameView(a, b) && SameView(b, c)
    ensures SameView(a, c)
  {
  }

  /** Every pass of a disciplined reconciler, failing or not, is a child pass of the
      protocol. */
  lemma PassRefines(k: Reconciler, o: Oracle, s: Store, deps: set<Dependent>, owner: T.Owner, spec: T.Payload)
    requires Unmeddled(o) && Stored(s) && Disciplined(k, deps) && DropsLast(k.delete)
    ensures Refines(s, Reconcile(k, o, s), EffectOf(k, o, s), owner, spec)
  {
    hide Acts, Run, Disciplined, DropsLast, Reconcile, ViewAfter, T.ChildPass;
    ActsHarmless(s, o.env(Fetch));
    var s1 := Acts(s, o.env(Fetch));
    var x := EffectOf(k, o, s);
    if o.reply(Fetch).err.Other? || s1.cr.None? {
      NothingRead(k, o, s, owner, spec);
      return;
    }
    var cr := s1.cr.value;
    var l := Body(k, o, s1, cr).local;
    BodyPatched(k, o, s, deps, owner, spec);
    BodyView(k, o, s1, cr, deps);
    RefreshedList(o, l.memo.status);
    assert Seen(s, owner, spec) == Seen(s1, owner, spec);
    ViewIsChildPass(cr.meta, cr.status.conditions, l.meta.ours, Refreshed(o, l.memo.status).conditions, x, owner, spec);
  }

  lemma NothingRead(k: Reconciler, o: Oracle, s: Store, owner: T.Owner, spec: T.Payload)
    requires Unmeddled(o) && Stored(s) && (o.reply(Fetch).err.Other? || Acts(s, o.env(Fetch)).cr.None?)
    ensures Refines(s, Reconcile(k, o, s), EffectOf(k, o, s), owner, spec)
  {
    hide Acts, Run, Body, FinishFlow;
    ActsHarmless(s, o.env(Fetch));
  }

  /** The stored resource after a pass that read one, and its readiness. */
  lemma BodyPatched(k: Reconciler, o: Oracle, s: Store, deps: set<Dependent>, owner: T.Owner, spec: T.Payload)
    requires Unmeddled(o) && Stored(s) && Disciplined(k, deps) && DropsLast(k.delete)
    requires !o.reply(Fetch).err.Other? && Acts(s, o.env(Fetch)).cr.Some?
    ensures var s1 := Acts(s, o.env(Fetch));
            var cr := s1.cr.value;
            var l := Body(k, o, s1, cr).local;
            var x := EffectOf(k, o, s);
            var status := Refreshed(o, l.memo.status);
            var r := ViewAfter(cr.meta, cr.status.conditions, l.meta.ours, status.conditions, x, owner, spec);
            && Seen(Reconcile(k, o, s), owner, spec) == r
            && (x.status && r.Some? ==> x.ready == IsTrue(status.conditions, Ready))
  {
    hide Acts, Body, Run, Patched, PatchFails, Disciplined, DropsLast, Refreshed, IsTrue;
    var s1 := Acts(s, o.env(Fetch));
    var cr := s1.cr.value;
    var l := Body(k, o, s1, cr).local;
    BodyView(k, o, s1, cr, deps);
    ActsHarmless(l.store, o.env(Patch));
    var s2 := Acts(l.store, o.env(Patch));
    SameViewTransitive(s2.cr, l.store.cr, s1.cr);
    PatchView(o, cr, l.meta.ours, Refreshed(o, l.memo.status), s2, EffectOf(k, o, s), owner, spec);
  }

  lemma RefreshedList(o: Oracle, st: Status)
    ensures Refreshed(o, st).conditions.Some? <==> st.conditions.Some? || o.nilReady
  {
  }

  lemma AutoscalingShape(namespace: string, objectHash: map<Var, string> -> string)
    ensures var k := Autoscaling(namespace, objectHash); Disciplined(k, AODH_DEPS) && DropsLast(k.delete)
  {
    AutoscalingDisciplined(namespace, objectHash);
    hide Disciplined, AutoscalingProgram;
    var p := Then(ReleaseFinalizer(KeystoneEndpoint), Then(DropFinalizer, End));
    assert DropsLast(p);
    assert DropsLast(Then(ReleaseFinalizer(KeystoneService), p));
  }

  lemma CeilometerShape(namespace: string, objectHash: map<Var, string> -> string)
    ensures var k := Ceilometer(namespace, objectHash); Disciplined(k, CEILOMETER_DEPS) && DropsLast(k.delete)
  {
    CeilometerDisciplined(namespace, objectHash);
    hide Disciplined, CeilometerProgram;
  }

  /** Every Autoscaling pass is a child pass of the protocol, and one in which nothing
      fails goes through. */
  lemma AutoscalingRefines(namespace: string, objectHash: map<Var, string> -> string, o: Oracle, s: Store,
                           owner: T.Owner, spec: T.Payload)
    requires Unmeddled(o) && Stored(s)
    ensures var k := Autoscaling(namespace, objectHash);
            && Refines(s, Reconcile(k, o, s), EffectOf(k, o, s), owner, spec)
            && (Calm(o) ==> T.GoesThrough(EffectOf(k, o, s)))
  {
    hide Run, Reconcile, Refines, Disciplined, DropsLast, AutoscalingProgram, DeleteAodh;
    var k := Autoscaling(namespace, objectHash);
    AutoscalingShape(namespace, objectHash);
    PassRefines(k, o, s, AODH_DEPS, owner, spec);
    if Calm(o) && InDeletion(s) {
      assert Acts(s, o.env(Fetch)) == s;
      var l := DeleteAodhRun(k, o, Begin(s, s.cr.value));
    }
  }

  lemma DeleteAodhRun(k: Reconciler, o: Oracle, l: Local) returns (r: Local)
    requires Calm(o)
    ensures Run(k, o, DeleteAodh(), l) == Next(r)
  {
    hide Run, Release;
    var p3 := Then(DropFinalizer, End);
    var p2 := Then(ReleaseFinalizer(KeystoneEndpoint), p3);
    I.CalmRelease(k, o, Database, Then(ReleaseFinalizer(KeystoneService), p2), l);
    var l1 := l.(store := Release(l.store, Database));
    I.CalmRelease(k, o, KeystoneService, p2, l1);
    var l2 := l1.(store := Release(l1.store, KeystoneService));
    I.CalmRelease(k, o, KeystoneEndpoint, p3, l2);
    var l3 := l2.(store := Release(l2.store, KeystoneEndpoint));
    I.CalmDrop(k, o, l3);
    r := l3.(meta := l3.meta.(ours := false));
  }

  /** The same for Ceilometer. */
  lemma CeilometerRefines(namespace: string, objectHash: map<Var, string> -> string, o: Oracle, s: Store,
                          owner: T.Owner, spec: T.Payload)
    requires Unmeddled(o) && Stored(s)
    ensures var k := Ceilometer(namespace, objectHash);
            && Refines(s, Reconcile(k, o, s), EffectOf(k, o, s), owner, spec)
            && (Calm(o) ==> T.GoesThrough(EffectOf(k, o, s)))
  {
    hide Run, Reconcile, Refines, Disciplined, DropsLast, CeilometerProgram, DeleteCeilometer;
    var k := Ceilometer(namespace, objectHash);
    CeilometerShape(namespace, objectHash);
    PassRefines(k, o, s, CEILOMETER_DEPS, owner, spec);
    if Calm(o) && InDeletion(s) {
      assert Acts(s, o.env(Fetch)) == s;
      var l := DeleteCeilometerRun(k, o, Begin(s, s.cr.value));
    }
  }

  lemma DeleteCeilometerRun(k: Reconciler, o: Oracle, l: Local) returns (r: Local)
    requires Calm(o)
    ensures Run(k, o, DeleteCeilometer(), l) == Next(r)
  {
    hide Run, Release;
    I.CalmRelease(k, o, KeystoneService, Then(DropFinalizer, End), l);
    var l1 := l.(store := Release(l.store, KeystoneService));
    I.CalmDrop(k, o, l1);
    r := l1.(meta := l1.meta.(ours := false));
  }

  // ---------------------------------------------------------------- MetricStorage

  function SeenStorage(m: Option<W.MetricStorage>, owner: T.Owner, spec: T.Payload): Option<T.Child> {
    if m.None? then None
    else Some(T.Child(m.value.meta, m.value.conditions.Some?, IsTrue(m.value.conditions, Ready), owner, spec))
  }

  function StorageEffect(o: W.Oracle, stored: Option<W.MetricStorage>): T.Effect {
    T.Effect(!o.fetchFails && o.patchMeta, !o.fetchFails && o.patchStatus, true, o.nilReady,
             stored.Some? && IsTrue(stored.value.conditions, Ready))
  }

  /** Users only edit the spec in the middle of the pass. */
  predicate OnlyEdits(es: seq<W.ObjectEvent>) {
    forall i :: 0 <= i < |es| ==> es[i].Edits?
  }

  lemma {:induction false} EditsKeep(m: W.MetricStorage, es: seq<W.ObjectEvent>)
    requires OnlyEdits(es)
    ensures var r := W.ObjectActs(Some(m), es); r.Some? && r.value.meta == m.meta && r.value.conditions == m.conditions
    decreases |es|
  {
    if es != [] {
      assert es[0].Edits?;
      EditsKeep(m.(spec := es[0].spec), es[1..]);
    }
  }

  /** And for MetricStorage, whose deletion cannot fail in the middle. */
  lemma MetricStorageRefines(o: W.Oracle, m: Option<W.MetricStorage>, watching: seq<string>, registered: seq<string>,
                             owner: T.Owner, spec: T.Payload)
    requires OnlyEdits(o.env) && (m.Some? ==> Settle(m.value.meta).Some?)
    ensures var stored := W.Pass(o, m, watching, registered).out.stored;
            SeenStorage(stored, owner, spec) ==
              if m.None? then None else T.ChildPass(SeenStorage(m, owner, spec).value, StorageEffect(o, stored))
  {
    hide W.Normal, WithReady, W.ObjectActs, IsTrue, T.ChildPass, ViewAfter;
    if m.Some? && !o.fetchFails {
      var x := StorageEffect(o, W.Pass(o, m, watching, registered).out.stored);
      var (ours, conds) := StorageMemory(o, m.value, watching, registered);
      StoragePatched(o, m.value, ours, conds, x, owner, spec);
      ViewIsChildPass(m.value.meta, m.value.conditions, ours, W.Refreshed(o, conds), x, owner, spec);
    } else if m.Some? {
      NoEffect(SeenStorage(m, owner, spec).value, StorageEffect(o, m));
    }
  }

  lemma NoEffect(c: T.Child, x: T.Effect)
    requires !x.meta && !x.status && Settle(c.meta).Some?
    ensures T.ChildPass(c, x) == Some(c)
  {
  }

  /** The finalizer and the condition list that a MetricStorage pass comes to its
      deferred write with. */
  function StorageMemory(o: W.Oracle, m: W.MetricStorage, watching: seq<string>, registered: seq<string>)
    : (bool, Option<Conds>)
  {
    if W.AddsFinalizer(m) then (true, m.conditions)
    else if m.conditions.None? then (m.meta.ours, Some(AllUnknown(W.METRIC_STORAGE_CONDS)))
    else if m.meta.deleting then (false, m.conditions)
    else (true, Some(W.Normal(o, m.spec, W.State(watching, registered, m.conditions.value)).state.conds))
  }

  lemma StoragePatched(o: W.Oracle, m: W.MetricStorage, ours: bool, conds: Option<Conds>, x: T.Effect,
                       owner: T.Owner, spec: T.Payload)
    requires OnlyEdits(o.env) && x.meta == o.patchMeta && x.status == o.patchStatus
    ensures SeenStorage(W.Finish(o, m, ours, conds, W.DONE, true).stored, owner, spec) ==
            ViewAfter(m.meta, m.conditions, ours, W.Refreshed(o, conds), x, owner, spec)
    ensures var r := ViewAfter(m.meta, m.conditions, ours, W.Refreshed(o, conds), x, owner, spec);
            x.status && r.Some? ==> r.value.ready == IsTrue(W.Refreshed(o, conds), Ready)
  {
    hide WithReady, W.ObjectActs, IsTrue;
    EditsKeep(m, o.env);
  }
}
