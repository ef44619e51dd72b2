/** The theorems of module Safety for the two reconcilers of the operator, and the
    points on which they differ. */
module Instances {
  import opened Conditions
  import opened Cluster
  import opened Stages
  import opened Safety
  import opened Programs
  import opened Discipline
  import opened Convergence

  type Hash = map<Var, string> -> string

  // ---------------------------------------------------------------- finalizers

  /** In every run that starts with nothing held: a database, keystone service or
      keystone endpoint that carries our finalizer implies a stored Autoscaling
      that carries it too. So none is left behind when the resource is gone. */
  lemma AutoscalingFinalizers(namespace: string, objectHash: Hash, s: Store, es: seq<Event>, d: Dependent)
    requires forall e :: !HoldsOurs(s, e)
    ensures var r := Exec(Autoscaling(namespace, objectHash), s, es);
            HoldsOurs(r, d) ==> r.cr.Some? && r.cr.value.meta.ours
  {
    hide Exec, Autoscaling;
    AutoscalingDisciplined(namespace, objectHash);
    RunCovered(Autoscaling(namespace, objectHash), s, es, AODH_DEPS);
  }

  /** The same for Ceilometer, which only ever holds its keystone service. */
  lemma CeilometerFinalizers(namespace: string, objectHash: Hash, s: Store, es: seq<Event>, d: Dependent)
    requires forall e :: !HoldsOurs(s, e)
    ensures var r := Exec(Ceilometer(namespace, objectHash), s, es);
            HoldsOurs(r, d) ==> d == KeystoneService && r.cr.Some? && r.cr.value.meta.ours
  {
    hide Exec, Ceilometer;
    CeilometerDisciplined(namespace, objectHash);
    RunCovered(Ceilometer(namespace, objectHash), s, es, CEILOMETER_DEPS);
  }

  /** A resource that a user deleted, past its initialisation. */
  predicate Terminating(s: Store) {
    && s.cr.Some? && s.cr.value.meta == Meta(true, false, true)
    && s.cr.value.status.conditions.Some?
  }

  lemma CalmRelease(k: Reconciler, o: Oracle, d: Dependent, rest: Program, l: Local)
    requires Calm(o)
    ensures Run(k, o, Then(ReleaseFinalizer(d), rest), l) == Run(k, o, rest, l.(store := Release(l.store, d)))
  {
    assert d !in l.store.deps ==> Release(l.store, d) == l.store;
    hide Release;
    CalmStep(k, o, ReleaseFinalizer(d), rest, l);
  }

  lemma CalmDrop(k: Reconciler, o: Oracle, l: Local)
    requires Calm(o)
    ensures Run(k, o, Then(DropFinalizer, End), l) == Next(l.(meta := l.meta.(ours := false)))
  {
  }

  /** The deferred write after the finalizer was dropped: the object is gone. */
  lemma CalmGone(k: Reconciler, o: Oracle, s: Store, l: Local)
    requires Calm(o) && Terminating(s) && l.store.cr == s.cr && !l.meta.ours
    requires Run(k, o, k.delete, Begin(s, s.cr.value)) == Next(l)
    ensures Reconcile(k, o, s) == l.store.(cr := None)
  {
    hide Run;
    assert Acts(s, o.env(Fetch)) == s;
    assert Acts(l.store, o.env(Patch)) == l.store;
    assert Body(k, o, s, s.cr.value) == Next(l);
  }

  /** The progress side of finalizer safety: one calm pass on a deleted Autoscaling
      lets go of everything and the resource disappears. */
  lemma AutoscalingDeletionCompletes(namespace: string, objectHash: Hash, o: Oracle, s: Store, d: Dependent)
    requires Calm(o) && Terminating(s)
    ensures var r := Reconcile(Autoscaling(namespace, objectHash), o, s);
            r.cr.None? && !HoldsOurs(r, d)
  {
    hide Run, Reconcile, Release;
    var k := Autoscaling(namespace, objectHash);
    var l := Begin(s, s.cr.value);
    var s1 := Release(s, Database);
    var s2 := Release(s1, KeystoneService);
    var s3 := Release(s2, KeystoneEndpoint);
    var p3 := Then(DropFinalizer, End);
    var p2 := Then(ReleaseFinalizer(KeystoneEndpoint), p3);
    var p1 := Then(ReleaseFinalizer(KeystoneService), p2);
    CalmRelease(k, o, Database, p1, l);
    CalmRelease(k, o, KeystoneService, p2, l.(store := s1));
    CalmRelease(k, o, KeystoneEndpoint, p3, l.(store := s2));
    CalmDrop(k, o, l.(store := s3));
    CalmGone(k, o, s, l.(store := s3, meta := l.meta.(ours := false)));
    assert !HoldsOurs(s3, d);
    assert s3.(cr := None).deps == s3.deps;
  }

  lemma CeilometerDeletionCompletes(namespace: string, objectHash: Hash, o: Oracle, s: Store, d: Dependent)
    requires Calm(o) && Terminating(s) && Covered(s, CEILOMETER_DEPS)
    ensures var r := Reconcile(Ceilometer(namespace, objectHash), o, s);
            r.cr.None? && !HoldsOurs(r, d)
  {
    hide Run, Reconcile, Release;
    var k := Ceilometer(namespace, objectHash);
    var l := Begin(s, s.cr.value);
    var s1 := Release(s, KeystoneService);
    CalmRelease(k, o, KeystoneService, Then(DropFinalizer, End), l);
    CalmDrop(k, o, l.(store := s1));
    CalmGone(k, o, s, l.(store := s1, meta := l.meta.(ours := false)));
    assert !HoldsOurs(s1, d);
    assert s1.(cr := None).deps == s1.deps;
  }

  // ---------------------------------------------------------------- the gate

  /** Whatever workload a run of Autoscaling passes leaves behind, its CONFIG_HASH
      was in the stored status when some pass of that run began. */
  lemma AutoscalingGate(namespace: string, objectHash: Hash, s: Store, es: seq<Event>) returns (i: nat)
    requires (forall vars :: objectHash(vars) != "") && s.workload.None?
    requires Exec(Autoscaling(namespace, objectHash), s, es).workload.Some?
    ensures var k := Autoscaling(namespace, objectHash);
            && i < |es| && es[i].Reconciles?
            && Recorded(Exec(k, s, es[..i]), Exec(k, s, es).workload.value)
  {
    hide Exec;
    AutoscalingDisciplined(namespace, objectHash);
    i := GateSafety(Autoscaling(namespace, objectHash), s, es, AODH_DEPS);
  }

  lemma CeilometerGate(namespace: string, objectHash: Hash, s: Store, es: seq<Event>) returns (i: nat)
    requires (forall vars :: objectHash(vars) != "") && s.workload.None?
    requires Exec(Ceilometer(namespace, objectHash), s, es).workload.Some?
    ensures var k := Ceilometer(namespace, objectHash);
            && i < |es| && es[i].Reconciles?
            && Recorded(Exec(k, s, es[..i]), Exec(k, s, es).workload.value)
  {
    hide Exec;
    CeilometerDisciplined(namespace, objectHash);
    i := GateSafety(Ceilometer(namespace, objectHash), s, es, CEILOMETER_DEPS);
  }

  // ---------------------------------------------------------------- wake-ups

  /** Ceilometer reports the error of its deferred patch, so a pass that returns
      nothing at all either completed or left a changed object, unconditionally. */
  lemma CeilometerWakeUp(namespace: string, objectHash: Hash, o: Oracle, s: Store)
    requires forall vars :: objectHash(vars) != ""
    requires var p := Pass(Ceilometer(namespace, objectHash), o, s); p.2.Some? && p.1 == DONE
    ensures var k := Ceilometer(namespace, objectHash);
            Pass(k, o, s).2.value.completed || ChangedBy(k, o, s)
  {
    hide Pass;
    CeilometerDisciplined(namespace, objectHash);
    NoLostWakeUp(Ceilometer(namespace, objectHash), o, s, CEILOMETER_DEPS);
  }

  /** Autoscaling drops that error, and owes the same only when the patch succeeded. */
  lemma AutoscalingWakeUp(namespace: string, objectHash: Hash, o: Oracle, s: Store)
    requires forall vars :: objectHash(vars) != ""
    requires var p := Pass(Autoscaling(namespace, objectHash), o, s);
             p.2.Some? && p.1 == DONE && !p.2.value.patchFailed
    ensures var k := Autoscaling(namespace, objectHash);
            Pass(k, o, s).2.value.completed || ChangedBy(k, o, s)
  {
    hide Pass;
    AutoscalingDisciplined(namespace, objectHash);
    NoLostWakeUp(Autoscaling(namespace, objectHash), o, s, AODH_DEPS);
  }

  /** The exact condition, whatever others do meanwhile: a pass that returns nothing and
      did not complete leaves the resource that it read changed if and only if the part
      of its patch that has something to write is accepted. Otherwise its wake-up is
      lost. */
  lemma AutoscalingWakeUpExactly(namespace: string, objectHash: Hash, o: Oracle, s: Store)
    requires (forall vars :: objectHash(vars) != "") && FreshUids(Acts(s, o.env(Fetch)))
    requires var p := Pass(Autoscaling(namespace, objectHash), o, s);
             p.2.Some? && p.1 == DONE && !p.2.value.completed
    ensures var k := Autoscaling(namespace, objectHash);
            var s1 := Acts(s, o.env(Fetch));
            s1.cr.Some? && (StillThere(k, o, s) ==> (ChangedBy(k, o, s) <==> Accepted(o, s1.cr.value)))
  {
    hide Acts, Body, ChangedBy, Accepted, StillThere, AutoscalingProgram, DeleteAodh, Patched, PatchFails;
    AutoscalingDisciplined(namespace, objectHash);
    WakeUpExactly(Autoscaling(namespace, objectHash), o, s, AODH_DEPS);
  }

  /** Such passes exist for every new Autoscaling: when neither part of the patch is
      accepted, the first pass returns nothing, did not complete and changed nothing. */
  lemma AutoscalingLostWakeUp(namespace: string, objectHash: Hash, o: Oracle, s: Store)
    requires o.env(Fetch) == [] && o.env(Patch) == [] && !o.reply(Fetch).err.Other?
    requires s.cr.Some? && AddsFinalizer(s.cr.value)
    requires !Accepted(o, s.cr.value)
    ensures var k := Autoscaling(namespace, objectHash);
            var p := Pass(k, o, s);
            && p.2.Some? && p.1 == DONE && p.2.value.patchFailed
            && !p.2.value.completed && !ChangedBy(k, o, s)
  {
    hide AutoscalingProgram, DeleteAodh, WithReady;
    assert Acts(s, o.env(Fetch)) == s;
    assert Acts(s, o.env(Patch)) == s;
    assert Body(Autoscaling(namespace, objectHash), o, s, s.cr.value).local.store == s;
  }

  // ---------------------------------------------------------------- InputReady

  /** A False mark of a run is its last one and still in force at its end. */
  lemma FalseMarkLasts(k: Reconciler, o: Oracle, p: Program, l: Local, c: Cond)
    requires l.memo.marks == [] && NeverMarksTrue(p, Ready)
    requires Mark(c, False) in Run(k, o, p, l).local.memo.marks
    ensures var conds := Run(k, o, p, l).local.memo.status.conditions;
            conds.Some? && c in conds.value && conds.value[c] == False
  {
    hide Run, Trues, NeverMarksTrue;
    var n := ProgramMarks(k, o, p, l);
    TruesAreTrue(o, p);
    var marks := Run(k, o, p, l).local.memo.marks;
    assert forall j :: 0 <= j < n ==> marks[j] == marks[..n][j] == Trues(o, p)[j];
  }

  /** A pass of Autoscaling that failed to read a secret, with its deferred patch
      accepted, leaves InputReady False and Ready not True; and so does every run
      that follows it, for as long as that resource exists. */
  lemma AutoscalingInputSticks(namespace: string, objectHash: Hash, o: Oracle, s: Store, es: seq<Event>)
    requires var s1 := Acts(s, o.env(Fetch)); FreshUids(s1) && s1.cr.Some?
    requires var p := Pass(Autoscaling(namespace, objectHash), o, s);
             && p.2.Some? && !p.2.value.patchFailed
             && Mark(InputReady, False) in p.2.value.last.memo.marks
    ensures var k := Autoscaling(namespace, objectHash);
            StuckFor(Exec(k, Reconcile(k, o, s), es), Acts(s, o.env(Fetch)).cr.value.uid)
  {
    hide Exec, Pass, Reconcile;
    var k := Autoscaling(namespace, objectHash);
    AutoscalingNeverRecovers(namespace, objectHash);
    FailedReadSticks(k, o, s);
    InputNeverRecovers(k, Reconcile(k, o, s), es, Acts(s, o.env(Fetch)).cr.value.uid);
  }

  lemma {:induction false} ActsFresh(s: Store, actions: seq<EnvAction>)
    requires FreshUids(s)
    ensures FreshUids(Acts(s, actions)) && Acts(s, actions).nextUid >= s.nextUid
    decreases |actions|
  {
    if actions != [] { ActsFresh(Act(s, actions[0]), actions[1..]); }
  }

  lemma {:induction false} RunFresh(k: Reconciler, o: Oracle, p: Program, l: Local)
    requires FreshUids(l.store)
    ensures var r := Run(k, o, p, l).local.store; FreshUids(r) && r.nextUid >= l.store.nextUid
    decreases p
  {
    if p.Then? {
      hide Judge, Acts;
      ActsFresh(l.store, o.env(p.head));
      var f := Step(k, o, p.head, l);
      if f.Next? { RunFresh(k, o, p.tail, f.local); }
    }
  }

  /** The programs of Autoscaling never mark Ready outright. */
  lemma AutoscalingNeverMarksReady(k: Reconciler, o: Oracle, cr: Resource)
    requires k == Autoscaling("", k.objectHash).(prometheusHost := k.prometheusHost)
    ensures NeverMarksTrue(ProgramOf(k, o, cr), Ready)
  {
    hide NeverMarksTrue, AutoscalingProgram, DeleteAodh;
    AutoscalingNeverMarks(o.publicFirst, Ready);
    DeleteAodhNeverMarks(Ready);
  }

  lemma FailedReadBody(k: Reconciler, o: Oracle, s: Store, cr: Resource)
    requires Mark(InputReady, False) in Body(k, o, s, cr).local.memo.marks
    requires k == Autoscaling("", k.objectHash).(prometheusHost := k.prometheusHost)
    requires s.cr == Some(cr) && FreshUids(s)
    ensures var l := Body(k, o, s, cr).local;
            && Stuck(l.memo.status.conditions)
            && FreshUids(l.store) && l.store.nextUid >= s.nextUid
            && (StuckFor(s, cr.uid) ==> StuckFor(l.store, cr.uid))
  {
    hide Run, NeverMarksTrue, AutoscalingProgram, DeleteAodh;
    var p := ProgramOf(k, o, cr);
    AutoscalingNeverMarksReady(k, o, cr);
    FalseMarkLasts(k, o, p, Begin(s, cr), InputReady);
    RunFresh(k, o, p, Begin(s, cr));
    if StuckFor(s, cr.uid) { RunStuckStore(k, o, p, Begin(s, cr), cr.uid); }
  }

  /** A patch that succeeds leaves the status that it was given, which was there
      before or is there now. */
  lemma PatchSticks(o: Oracle, before: Resource, ours: bool, status: Status, s: Store)
    requires FreshUids(s) && before.uid < s.nextUid
    requires Stuck(status.conditions) && !IsTrue(status.conditions, Ready)
    requires !PatchFails(o, before, ours, status, s)
    requires status == before.status ==> StuckFor(s, before.uid)
    ensures StuckFor(Patched(o, before, ours, status, s), before.uid)
  {
  }

  lemma FailedReadSticks(k: Reconciler, o: Oracle, s: Store)
    requires var s1 := Acts(s, o.env(Fetch)); FreshUids(s1) && s1.cr.Some?
    requires var p := Pass(k, o, s);
             && p.2.Some? && !p.2.value.patchFailed
             && Mark(InputReady, False) in p.2.value.last.memo.marks
    requires k == Autoscaling("", k.objectHash).(prometheusHost := k.prometheusHost)
    ensures StuckFor(Reconcile(k, o, s), Acts(s, o.env(Fetch)).cr.value.uid)
  {
    hide Acts, Body, Refreshed, Patched, PatchFails, Stuck, IsTrue, AutoscalingProgram, DeleteAodh;
    var s1 := Acts(s, o.env(Fetch));
    var cr := s1.cr.value;
    var l := Body(k, o, s1, cr).local;
    FailedReadBody(k, o, s1, cr);
    StuckNotReady(o, l.memo.status);
    ActsFresh(l.store, o.env(Patch));
    if StuckFor(s1, cr.uid) { ActsStuck(l.store, o.env(Patch), cr.uid); }
    PatchSticks(o, cr, l.meta.ours, Refreshed(o, l.memo.status), Acts(l.store, o.env(Patch)));
  }

  // ---------------------------------------------------------------- what is stored

  /** When the deferred patch did not fail and the resource is still the one that was
      read, the stored status is the one that the pass had in memory. */
  lemma StoredIsLast(k: Reconciler, o: Oracle, s: Store)
    requires var s1 := Acts(s, o.env(Fetch)); !o.reply(Fetch).err.Other? && s1.cr.Some? && FreshUids(s1)
    ensures var p := Pass(k, o, s);
            && p.2.Some?
            && (!p.2.value.patchFailed && p.0.cr.Some? && p.0.cr.value.uid == Acts(s, o.env(Fetch)).cr.value.uid ==>
                  p.0.cr.value.status == p.2.value.last.memo.status)
  {
    hide Acts, Body, Refreshed;
    var s1 := Acts(s, o.env(Fetch));
    var cr := s1.cr.value;
    BodyUntouched(k, o, s1, cr);
    ActsUntouched(Body(k, o, s1, cr).local.store, o.env(Patch), cr);
  }

  /** In Ceilometer the counterpart recovers: a pass over a live, initialised
      resource whose two secret reads succeed ends with InputReady True, whatever
      fails after them, and stores it unless the deferred patch fails. */
  lemma CeilometerInputRestored(namespace: string, objectHash: Hash, o: Oracle, s: Store)
    requires var s1 := Acts(s, o.env(Fetch));
             && !o.reply(Fetch).err.Other? && s1.cr.Some?
             && s1.cr.value.meta.ours && !s1.cr.value.meta.deleting && s1.cr.value.status.conditions.Some?
    requires o.reply(Rbac).err.Nil? && !o.reply(Rbac).requeue
    requires o.reply(Transport).err.Nil? && o.transportSecret != ""
    requires o.reply(ReadSecret(FromSpec)).err.Nil? && o.reply(ReadSecret(FromTransport)).err.Nil?
    ensures var p := Pass(Ceilometer(namespace, objectHash), o, s);
            var s1 := Acts(s, o.env(Fetch));
            && p.2.Some? && InputIs(p.2.value.last.memo.status.conditions, True)
            && (FreshUids(s1) && !p.2.value.patchFailed && p.0.cr.Some? && p.0.cr.value.uid == s1.cr.value.uid ==>
                  InputIs(p.0.cr.value.status.conditions, True))
  {
    hide Acts, Pass, InputIs;
    var k := Ceilometer(namespace, objectHash);
    InputRestoredInMemory(namespace, objectHash, o, s);
    if FreshUids(Acts(s, o.env(Fetch))) { StoredIsLast(k, o, s); }
  }

  lemma InputRestoredInMemory(namespace: string, objectHash: Hash, o: Oracle, s: Store)
    requires var s1 := Acts(s, o.env(Fetch));
             && !o.reply(Fetch).err.Other? && s1.cr.Some?
             && s1.cr.value.meta.ours && !s1.cr.value.meta.deleting && s1.cr.value.status.conditions.Some?
    requires o.reply(Rbac).err.Nil? && !o.reply(Rbac).requeue
    requires o.reply(Transport).err.Nil? && o.transportSecret != ""
    requires o.reply(ReadSecret(FromSpec)).err.Nil? && o.reply(ReadSecret(FromTransport)).err.Nil?
    ensures var p := Pass(Ceilometer(namespace, objectHash), o, s);
            p.2.Some? && InputIs(p.2.value.last.memo.status.conditions, True)
  {
    hide Run, Acts;
    var k := Ceilometer(namespace, objectHash);
    var s1 := Acts(s, o.env(Fetch));
    var l := Begin(s1, s1.cr.value);
    var rest := Then(Render(CeilometerCentral), Then(Render(CeilometerCompute), Then(Gate, ServeCeilometer(End))));
    var l' := InputMarked(k, o, rest, l);
    CeilometerRestSpares();
    RunKeepsInput(k, o, rest, l', True);
    InputRefreshed(o, Run(k, o, rest, l').local.memo.status);
    assert Body(k, o, s1, s1.cr.value) == Run(k, o, rest, l');
  }

  lemma InputRefreshed(o: Oracle, st: Status)
    requires InputIs(st.conditions, True)
    ensures InputIs(Refreshed(o, st).conditions, True)
  {
  }

  /** A stage that lets the pass go on. */
  lemma Onward(k: Reconciler, o: Oracle, st: Stage, rest: Program, l: Local)
    requires Judge(k, o, st, l.spec, l.memo).Go? && Step(k, o, st, l).Next?
    ensures Run(k, o, Then(st, rest), l) == Run(k, o, rest, Step(k, o, st, l).local)
    ensures Step(k, o, st, l).local.memo == Judge(k, o, st, l.spec, l.memo).memo
    ensures Step(k, o, st, l).local.spec == l.spec
  {
  }

  lemma InputMarked(k: Reconciler, o: Oracle, rest: Program, l: Local) returns (r: Local)
    requires o.reply(Rbac).err.Nil? && !o.reply(Rbac).requeue
    requires o.reply(Transport).err.Nil? && o.transportSecret != ""
    requires o.reply(ReadSecret(FromSpec)).err.Nil? && o.reply(ReadSecret(FromTransport)).err.Nil?
    ensures Run(k, o, Then(Rbac, Then(Transport, Then(ReadSecret(FromSpec), Then(ReadSecret(FromTransport),
                      Then(MarkDone(InputReady), rest))))), l) == Run(k, o, rest, r)
    ensures InputIs(r.memo.status.conditions, True)
  {
    hide Run, Acts, SetRbac, SetMark;
    var p4 := Then(MarkDone(InputReady), rest);
    var p3 := Then(ReadSecret(FromTransport), p4);
    var p2 := Then(ReadSecret(FromSpec), p3);
    var p1 := Then(Transport, p2);
    Onward(k, o, Rbac, p1, l);
    var l1 := Step(k, o, Rbac, l).local;
    Onward(k, o, Transport, p2, l1);
    var l2 := Step(k, o, Transport, l1).local;
    Onward(k, o, ReadSecret(FromSpec), p3, l2);
    var l3 := Step(k, o, ReadSecret(FromSpec), l2).local;
    Onward(k, o, ReadSecret(FromTransport), p4, l3);
    var l4 := Step(k, o, ReadSecret(FromTransport), l3).local;
    Onward(k, o, MarkDone(InputReady), rest, l4);
    r := Step(k, o, MarkDone(InputReady), l4).local;
    MarkedInput(l4.memo);
  }

  lemma MarkedInput(m: Memo)
    ensures InputIs(SetMark(m, InputReady, True).status.conditions, True)
  {
  }

  lemma CeilometerRestSpares()
    ensures var p := Then(Render(CeilometerCentral), Then(Render(CeilometerCompute), Then(Gate, ServeCeilometer(End))));
            NeverMarksTrue(p, InputReady) && ReadsNoSecret(p)
  {
    var p := Then(OwnWorkload, Then(ScrapeService, End));
    assert NeverMarksTrue(p, InputReady) && ReadsNoSecret(p);
    p := Then(DefineWorkload, Then(Deploy, p));
    assert NeverMarksTrue(p, InputReady) && ReadsNoSecret(p);
    p := Then(InitSecret, Then(Register(KeystoneService), p));
    assert NeverMarksTrue(p, InputReady) && ReadsNoSecret(p);
    p := Then(Gate, Then(MarkDone(ServiceConfigReady), p));
    assert NeverMarksTrue(p, InputReady) && ReadsNoSecret(p);
  }
}
