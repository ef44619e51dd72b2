/** From a new resource to a Ready one. */
module Readiness {
  import opened Conditions
  import opened Cluster
  import opened Stages
  import opened Programs
  import opened Convergence
  import opened CeilometerConvergence
  import opened Checks

  type Hash = map<Var, string> -> string

  // ---------------------------------------------------------------- the first list

  /** The list holds these conditions and Ready, and knows nothing yet. */
  predicate Fresh(c: Option<Conds>, names: set<Cond>) {
    c.Some? && c.value.Keys == names + {Ready} && forall t :: t in c.value ==> c.value[t] == Unknown
  }

  lemma UnknownIsFresh(names: set<Cond>, t: Cond)
    requires t in names && Ready !in names
    ensures Fresh(Some(WithReady(AllUnknown(names))), names)
  {
    assert !AllSubTrue(AllUnknown(names)) by { assert AllUnknown(names)[t] == Unknown; }
  }

  /** The first pass that finds our finalizer and no condition list sets up the list of
      its reconciler and ends. */
  lemma FirstList(k: Reconciler, o: Oracle, s: Store, t: Cond)
    requires Pass(k, o, s).2.Some? && t in k.initial && Ready !in k.initial
    requires var cr := Acts(s, o.env(Fetch)).cr.value; cr.status.conditions.None? && (cr.meta.ours || cr.meta.deleting)
    ensures var out := Pass(k, o, s).2.value;
            Fresh(out.last.memo.status.conditions, k.initial) && !out.completed && out.last.meta.ours ==
              Acts(s, o.env(Fetch)).cr.value.meta.ours
  {
    hide Acts, Run, Patched, PatchFails, Fresh;
    UnknownIsFresh(k.initial, t);
  }

  lemma AutoscalingFirstList(namespace: string, objectHash: Hash, o: Oracle, s: Store)
    requires Pass(Autoscaling(namespace, objectHash), o, s).2.Some?
    requires var cr := Acts(s, o.env(Fetch)).cr.value; cr.status.conditions.None? && (cr.meta.ours || cr.meta.deleting)
    ensures Fresh(Pass(Autoscaling(namespace, objectHash), o, s).2.value.last.memo.status.conditions,
                  {ServiceAccountReady, RoleReady, RoleBindingReady, HeatReady, MemcachedReady, ServiceConfigReady,
                   DBReady, DBSyncReady, RabbitMqTransportURLReady, DeploymentReady, KeystoneServiceReady,
                   KeystoneEndpointReady})
  {
    hide Pass, Acts, Fresh, AutoscalingProgram, DeleteAodh;
    FirstList(Autoscaling(namespace, objectHash), o, s, DBReady);
  }

  lemma CeilometerFirstList(namespace: string, objectHash: Hash, o: Oracle, s: Store)
    requires Pass(Ceilometer(namespace, objectHash), o, s).2.Some?
    requires var cr := Acts(s, o.env(Fetch)).cr.value; cr.status.conditions.None? && (cr.meta.ours || cr.meta.deleting)
    ensures Fresh(Pass(Ceilometer(namespace, objectHash), o, s).2.value.last.memo.status.conditions,
                  {InputReady, ServiceConfigReady, DeploymentReady, ServiceAccountReady, RoleReady, RoleBindingReady,
                   KeystoneServiceReady})
  {
    hide Pass, Acts, Fresh, CeilometerProgram, DeleteCeilometer;
    FirstList(Ceilometer(namespace, objectHash), o, s, InputReady);
  }

  // ---------------------------------------------------------------- only its own conditions

  /** Besides Ready the list holds nothing outside `own`. */
  predicate OwnList(c: Option<Conds>, own: set<Cond>) {
    c.Some? ==> c.value.Keys <= own + {Ready}
  }

  predicate WritesWithin(o: Oracle, p: Program, own: set<Cond>) {
    p.Then? ==> Writes(o, p.head).Keys <= own && WritesWithin(o, p.tail, own)
  }

  /** A calm stage that does not go through is the gate, which writes no condition. */
  lemma CalmStageOwn(k: Reconciler, o: Oracle, st: Stage, spec: Spec, m: Memo, own: set<Cond>)
    requires Calm(o) && m.status.conditions.Some? && OwnList(m.status.conditions, own) && Writes(o, st).Keys <= own
    ensures var r := Judge(k, o, st, spec, m).memo; r.status.conditions.Some? && OwnList(r.status.conditions, own)
  {
    hide Judge, Writes;
    StageVerdict(k, o, st, spec, m);
    if Judge(k, o, st, spec, m).Go? {
      JudgeWrites(k, o, st, spec, m);
    } else {
      assert st.Gate?;
      GateWritesNoCondition(k, o, spec, m);
    }
  }

  lemma GateWritesNoCondition(k: Reconciler, o: Oracle, spec: Spec, m: Memo)
    requires o.reply(Gate).err.Nil?
    ensures Judge(k, o, Gate, spec, m).memo.status.conditions == m.status.conditions
  {
  }

  lemma {:induction false} CalmRunOwn(k: Reconciler, o: Oracle, p: Program, l: Local, own: set<Cond>)
    requires Calm(o) && l.memo.status.conditions.Some? && OwnList(l.memo.status.conditions, own)
    requires WritesWithin(o, p, own)
    ensures OwnList(Run(k, o, p, l).local.memo.status.conditions, own)
    decreases p
  {
    if p.Then? {
      hide Judge, Calm, OwnList, Writes;
      CalmStageOwn(k, o, p.head, l.spec, l.memo, own);
      var f := Step(k, o, p.head, l);
      if f.Next? { CalmRunOwn(k, o, p.tail, f.local, own); }
    }
  }

  /** The conditions that a reconciler's program and initial list may put there. */
  predicate Owns(k: Reconciler, o: Oracle, own: set<Cond>) {
    k.initial <= own && WritesWithin(o, Normal(k, o.publicFirst), own)
  }

  lemma CalmPassOwn(k: Reconciler, o: Oracle, s: Store, own: set<Cond>)
    requires Calm(o) && Alive(s) && OwnList(s.cr.value.status.conditions, own) && Owns(k, o, own)
    ensures var r := Reconcile(k, o, s); r.cr.Some? ==> OwnList(r.cr.value.status.conditions, own)
  {
    var cr := s.cr.value;
    assert Acts(s, o.env(Fetch)) == s;
    var f := Body(k, o, s, cr);
    assert Acts(f.local.store, o.env(Patch)) == f.local.store;
    assert OwnList(f.local.memo.status.conditions, own) by {
      if cr.meta.ours && cr.status.conditions.Some? {
        CalmRunOwn(k, o, Normal(k, o.publicFirst), Begin(s, cr), own);
      }
    }
    hide Run, Acts;
    CalmStoreStays(k, o, s, cr);
  }

  /** What is stored meanwhile is what was read. */
  lemma CalmStoreStays(k: Reconciler, o: Oracle, s: Store, cr: Resource)
    requires Calm(o) && s.cr == Some(cr)
    ensures Body(k, o, s, cr).local.store.cr == s.cr
  {
    hide Run;
    CalmRunStays(k, o, ProgramOf(k, o, cr), Begin(s, cr));
  }

  lemma {:induction false} CalmRunStays(k: Reconciler, o: Oracle, p: Program, l: Local)
    requires Calm(o)
    ensures Run(k, o, p, l).local.store.cr == l.store.cr
    decreases p
  {
    if p.Then? {
      hide Judge;
      assert Acts(l.store, o.env(p.head)) == l.store;
      var f := Step(k, o, p.head, l);
      if f.Next? { CalmRunStays(k, o, p.tail, f.local); }
    }
  }

  lemma Within(o: Oracle, st: Stage, rest: Program, own: set<Cond>)
    requires WritesWithin(o, rest, own) && Writes(o, st).Keys <= own
    ensures WritesWithin(o, Then(st, rest), own)
  {
  }

  /** Every stage of an Autoscaling program writes only its own conditions. */
  lemma AodhWithin(o: Oracle, st: Stage, rest: Program)
    requires WritesWithin(o, rest, AODH_WRITTEN)
    requires (st.MarkDone? ==> st.cond.ServiceConfigReady?)
    requires (st.Require? ==> st.cond.MemcachedReady? || st.cond.HeatReady?)
    ensures WritesWithin(o, Then(st, rest), AODH_WRITTEN)
  {
    hide WritesWithin;
    assert Writes(o, st).Keys <= AODH_WRITTEN;
    Within(o, st, rest, AODH_WRITTEN);
  }

  lemma NormalWithin(o: Oracle, b: bool)
    ensures WritesWithin(o, NormalAodh(b, End), AODH_WRITTEN)
  {
    assert WritesWithin(o, End, AODH_WRITTEN);
    hide WritesWithin;
    var x := if b then Public else Internal;
    var y := if b then Internal else Public;
    var p := End;
    AodhWithin(o, Register(KeystoneEndpoint), p); p := Then(Register(KeystoneEndpoint), p);
    AodhWithin(o, Publish, p); p := Then(Publish, p);
    AodhWithin(o, Address(y), p); p := Then(Address(y), p);
    AodhWithin(o, Expose(y), p); p := Then(Expose(y), p);
    AodhWithin(o, Address(x), p); p := Then(Address(x), p);
    AodhWithin(o, Expose(x), p); p := Then(Expose(x), p);
    AodhWithin(o, OwnWorkload, p); p := Then(OwnWorkload, p);
    AodhWithin(o, Deploy, p); p := Then(Deploy, p);
    AodhWithin(o, DefineWorkload, p);
  }

  lemma InitWithin(o: Oracle, rest: Program)
    requires WritesWithin(o, rest, AODH_WRITTEN)
    ensures WritesWithin(o, InitAodh(rest), AODH_WRITTEN)
  {
    hide WritesWithin;
    var p := rest;
    AodhWithin(o, SyncDatabase, p); p := Then(SyncDatabase, p);
    AodhWithin(o, AwaitDatabase, p); p := Then(AwaitDatabase, p);
    AodhWithin(o, CreateDatabase, p); p := Then(CreateDatabase, p);
    AodhWithin(o, Register(KeystoneService), p); p := Then(Register(KeystoneService), p);
    AodhWithin(o, InitSecret, p);
  }

  lemma AodhOwns(namespace: string, objectHash: Hash, o: Oracle)
    ensures Owns(Autoscaling(namespace, objectHash), o, AODH_WRITTEN)
  {
    hide WritesWithin, NormalAodh, InitAodh, PrepareAutoscaling, DeleteAodh;
    var p := NormalAodh(o.publicFirst, End);
    NormalWithin(o, o.publicFirst);
    InitWithin(o, p); p := InitAodh(p);
    AodhWithin(o, Gate, p); p := Then(Gate, p);
    PrepareWithin(o, p);
  }

  lemma PrepareWithin(o: Oracle, rest: Program)
    requires WritesWithin(o, rest, AODH_WRITTEN)
    ensures WritesWithin(o, PrepareAutoscaling(rest), AODH_WRITTEN)
  {
    hide WritesWithin;
    var p := rest;
    AodhWithin(o, Render(Aodh), p); p := Then(Render(Aodh), p);
    AodhWithin(o, Prometheus, p); p := Then(Prometheus, p);
    AodhWithin(o, ReadSecret(FromTransport), p); p := Then(ReadSecret(FromTransport), p);
    AodhWithin(o, Require(HeatReady), p); p := Then(Require(HeatReady), p);
    AodhWithin(o, Require(MemcachedReady), p); p := Then(Require(MemcachedReady), p);
    AodhWithin(o, ReadSecret(FromSpec), p); p := Then(ReadSecret(FromSpec), p);
    AodhWithin(o, Transport, p); p := Then(Transport, p);
    AodhWithin(o, MarkDone(ServiceConfigReady), p); p := Then(MarkDone(ServiceConfigReady), p);
    AodhWithin(o, Rbac, p);
  }

  /** And every stage of a Ceilometer program. */
  lemma CeilometerWithin(o: Oracle, st: Stage, rest: Program)
    requires WritesWithin(o, rest, CEILOMETER_WRITTEN)
    requires st.MarkDone? ==> st.cond.ServiceConfigReady? || st.cond.InputReady?
    requires st.Register? ==> st.dep.KeystoneService?
    requires !st.Require? && !st.AwaitDatabase? && !st.SyncDatabase? && !st.Publish?
    ensures WritesWithin(o, Then(st, rest), CEILOMETER_WRITTEN)
  {
    hide WritesWithin;
    assert Writes(o, st).Keys <= CEILOMETER_WRITTEN;
    Within(o, st, rest, CEILOMETER_WRITTEN);
  }

  lemma ServeWithin(o: Oracle)
    ensures WritesWithin(o, ServeCeilometer(End), CEILOMETER_WRITTEN)
  {
    assert WritesWithin(o, End, CEILOMETER_WRITTEN);
    hide WritesWithin;
    var p := End;
    CeilometerWithin(o, ScrapeService, p); p := Then(ScrapeService, p);
    CeilometerWithin(o, OwnWorkload, p); p := Then(OwnWorkload, p);
    CeilometerWithin(o, Deploy, p); p := Then(Deploy, p);
    CeilometerWithin(o, DefineWorkload, p); p := Then(DefineWorkload, p);
    CeilometerWithin(o, Register(KeystoneService), p); p := Then(Register(KeystoneService), p);
    CeilometerWithin(o, InitSecret, p); p := Then(InitSecret, p);
    CeilometerWithin(o, MarkDone(ServiceConfigReady), p);
  }

  lemma CeilometerOwns(namespace: string, objectHash: Hash, o: Oracle)
    ensures Owns(Ceilometer(namespace, objectHash), o, CEILOMETER_WRITTEN)
  {
    hide WritesWithin, ServeCeilometer, DeleteCeilometer;
    ServeWithin(o);
    var p := ServeCeilometer(End);
    CeilometerWithin(o, Gate, p); p := Then(Gate, p);
    CeilometerWithin(o, Render(CeilometerCompute), p); p := Then(Render(CeilometerCompute), p);
    CeilometerWithin(o, Render(CeilometerCentral), p); p := Then(Render(CeilometerCentral), p);
    CeilometerWithin(o, MarkDone(InputReady), p); p := Then(MarkDone(InputReady), p);
    CeilometerWithin(o, ReadSecret(FromTransport), p); p := Then(ReadSecret(FromTransport), p);
    CeilometerWithin(o, ReadSecret(FromSpec), p); p := Then(ReadSecret(FromSpec), p);
    CeilometerWithin(o, Transport, p); p := Then(Transport, p);
    CeilometerWithin(o, Rbac, p);
  }

  // ---------------------------------------------------------------- bring-up

  lemma {:induction false} AodhTurnsOwn(namespace: string, objectHash: Hash, s: Store, os: seq<Oracle>)
    requires Alive(s) && OwnList(s.cr.value.status.conditions, AODH_WRITTEN)
    requires forall i :: 0 <= i < |os| ==> Calm(os[i])
    ensures var r := Turns(Autoscaling(namespace, objectHash), os, s);
            Alive(r) && OwnList(r.cr.value.status.conditions, AODH_WRITTEN)
    decreases |os|
  {
    if os != [] {
      hide Reconcile, AutoscalingProgram, DeleteAodh, Calm, OwnList, Owns;
      var k := Autoscaling(namespace, objectHash);
      var n := |os| - 1;
      AodhTurnsOwn(namespace, objectHash, s, os[..n]);
      var r := Turns(k, os[..n], s);
      AodhOwns(namespace, objectHash, os[n]);
      CalmKeepsLive(k, os[n], r);
      CalmPassOwn(k, os[n], r, AODH_WRITTEN);
    }
  }

  /** A new Autoscaling becomes Ready: from any resource not marked for deletion whose list
      holds only Autoscaling's own conditions, six or more failure-free passes that agree
      on the inputs, the last one in healthy surroundings, leave it Ready. */
  lemma AutoscalingBecomesReady(namespace: string, objectHash: Hash, o: Oracle, s: Store, os: seq<Oracle>)
    requires Alive(s) && OwnList(s.cr.value.status.conditions, AODH_WRITTEN)
    requires |os| >= 6 && CalmPasses(os, o) && Happy(os[|os| - 1])
    ensures var r := Turns(Autoscaling(namespace, objectHash), os, s);
            r.cr.Some? && IsTrue(r.cr.value.status.conditions, Ready)
  {
    hide Reconcile, AodhGoal, AutoscalingProgram, DeleteAodh, Calm, SameInputs, Happy, OwnList;
    var k := Autoscaling(namespace, objectHash);
    var n := |os| - 1;
    var before := Turns(k, os[..n], s);
    AodhPrimedBefore(namespace, objectHash, o, s, os[..n]);
    AodhTurnsOwn(namespace, objectHash, s, os[..n]);
    SameGoal(k, os[n], o, before.cr.value.spec, o.hostname);
    ReadyAfterCalm(k, os[n], before);
    NothingForeign(before.cr.value.status.conditions, AODH_WRITTEN);
  }

  lemma NothingForeign(c: Option<Conds>, own: set<Cond>)
    requires c.Some? && OwnList(c, own)
    ensures forall t :: t in c.value && t !in own && t != Ready ==> c.value[t] == True
  {
  }

  lemma AodhPrimedBefore(namespace: string, objectHash: Hash, o: Oracle, s: Store, os: seq<Oracle>)
    requires Alive(s) && |os| >= 5 && CalmPasses(os, o)
    ensures var k := Autoscaling(namespace, objectHash); Primed(k, o, Turns(k, os, s))
  {
    hide Reconcile, AodhGoal, AutoscalingProgram, DeleteAodh, Calm, SameInputs, Turns, Primed;
    var k := Autoscaling(namespace, objectHash);
    TwoTurnsSettle(k, o, s, os[..2]);
    TurnsSplit(k, os, 2, s);
    TurnsPrime(k, o, Turns(k, os[..2], s), os[2..]);
  }

  lemma {:induction false} CeilometerTurnsOwn(namespace: string, objectHash: Hash, s: Store, os: seq<Oracle>)
    requires Alive(s) && OwnList(s.cr.value.status.conditions, CEILOMETER_WRITTEN)
    requires forall i :: 0 <= i < |os| ==> Calm(os[i])
    ensures var r := Turns(Ceilometer(namespace, objectHash), os, s);
            Alive(r) && OwnList(r.cr.value.status.conditions, CEILOMETER_WRITTEN)
    decreases |os|
  {
    if os != [] {
      hide Reconcile, CeilometerProgram, DeleteCeilometer, Calm, OwnList, Owns;
      var k := Ceilometer(namespace, objectHash);
      var n := |os| - 1;
      CeilometerTurnsOwn(namespace, objectHash, s, os[..n]);
      var r := Turns(k, os[..n], s);
      CeilometerOwns(namespace, objectHash, os[n]);
      CeilometerKeepsLive(k, os[n], r);
      CalmPassOwn(k, os[n], r, CEILOMETER_WRITTEN);
    }
  }

  lemma CeilometerKeepsLive(k: Reconciler, o: Oracle, s: Store)
    requires Calm(o) && Alive(s) && Normal(k, o.publicFirst) == CeilometerProgram()
    ensures Alive(Reconcile(k, o, s))
  {
    hide Reconcile, CeilometerProgram, Normal, CeilometerStore, CeilometerFinal, CeilometerGoal;
    if Settled(s) {
      CalmCeilometerPass(k, o, s);
    } else {
      InitPass(k, o, s);
    }
  }

  /** The same for Ceilometer, in four passes. */
  lemma CeilometerBecomesReady(namespace: string, objectHash: Hash, o: Oracle, s: Store, os: seq<Oracle>)
    requires Alive(s) && OwnList(s.cr.value.status.conditions, CEILOMETER_WRITTEN)
    requires |os| >= 4 && CalmCeilometerPasses(os, o) && Happy(os[|os| - 1])
    ensures var r := Turns(Ceilometer(namespace, objectHash), os, s);
            r.cr.Some? && IsTrue(r.cr.value.status.conditions, Ready)
  {
    hide Reconcile, CeilometerGoal, CeilometerProgram, DeleteCeilometer, Calm, SameHashed, Happy, OwnList;
    var k := Ceilometer(namespace, objectHash);
    var n := |os| - 1;
    var before := Turns(k, os[..n], s);
    CeilometerPrimedBefore(namespace, objectHash, o, s, os[..n]);
    CeilometerTurnsOwn(namespace, objectHash, s, os[..n]);
    SameCeilometerGoal(k, os[n], o, before.cr.value);
    CeilometerReadyAfterCalm(k, os[n], before);
    NothingForeign(before.cr.value.status.conditions, CEILOMETER_WRITTEN);
  }

  lemma CeilometerPrimedBefore(namespace: string, objectHash: Hash, o: Oracle, s: Store, os: seq<Oracle>)
    requires Alive(s) && |os| >= 3 && CalmCeilometerPasses(os, o)
    ensures var k := Ceilometer(namespace, objectHash);
            var r := Turns(k, os, s);
            Settled(r) && Recorded(r, CeilometerGoal(k, o, r.cr.value))
  {
    hide Reconcile, CeilometerGoal, CeilometerProgram, DeleteCeilometer, Calm, SameHashed, Turns;
    var k := Ceilometer(namespace, objectHash);
    TwoPassesSettle(k, o, s, os[..2]);
    TurnsSplit(k, os, 2, s);
    CeilometerTurns(k, o, Turns(k, os[..2], s), os[2..]);
  }
}
