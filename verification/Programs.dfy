/** The Autoscaling (Aodh) and Ceilometer reconcilers as stage programs. */
module Programs {
  import opened Conditions
  import opened Cluster
  import opened Stages
  import opened Safety

  // ---------------------------------------------------------------- Autoscaling

  const AUTOSCALING_CONDS: set<Cond> := {
    ServiceAccountReady, RoleReady, RoleBindingReady, HeatReady, MemcachedReady, ServiceConfigReady,
    DBReady, DBSyncReady, RabbitMqTransportURLReady, DeploymentReady, KeystoneServiceReady, KeystoneEndpointReady }

  /** reconcileNormal up to the gate. */
  function PrepareAutoscaling(rest: Program): Program {
    Then(Rbac,
    Then(MarkDone(ServiceConfigReady),
    Then(Transport,
    Then(ReadSecret(FromSpec),
    Then(Require(MemcachedReady),
    Then(Require(HeatReady),
    Then(ReadSecret(FromTransport),
    Then(Prometheus,
    Then(Render(Aodh), rest)))))))))
  }

  /** reconcileInitAodh. */
  function InitAodh(rest: Program): Program {
    Then(InitSecret,
    Then(Register(KeystoneService),
    Then(CreateDatabase,
    Then(AwaitDatabase,
    Then(SyncDatabase, rest)))))
  }

  /** reconcileNormalAodh; the endpoint map is ranged over in either order. */
  function NormalAodh(publicFirst: bool, rest: Program): Program {
    var a := if publicFirst then Public else Internal;
    var b := if publicFirst then Internal else Public;
    Then(DefineWorkload,
    Then(Deploy,
    Then(OwnWorkload,
    Then(Expose(a),
    Then(Address(a),
    Then(Expose(b),
    Then(Address(b),
    Then(Publish,
    Then(Register(KeystoneEndpoint), rest)))))))))
  }

  function AutoscalingProgram(publicFirst: bool): Program {
    PrepareAutoscaling(Then(Gate, InitAodh(NormalAodh(publicFirst, End))))
  }

  function DeleteAodh(): Program {
    Then(ReleaseFinalizer(Database),
    Then(ReleaseFinalizer(KeystoneService),
    Then(ReleaseFinalizer(KeystoneEndpoint),
    Then(DropFinalizer, End))))
  }

  function Autoscaling(namespace: string, objectHash: map<Var, string> -> string): Reconciler {
    Reconciler("metric-storage-prometheus." + namespace + ".svc", AUTOSCALING_CONDS,
               AutoscalingProgram(false), AutoscalingProgram(true), DeleteAodh(), objectHash, true, false)
  }

  // ---------------------------------------------------------------- Ceilometer

  const CEILOMETER_CONDS: set<Cond> := {
    InputReady, ServiceConfigReady, DeploymentReady, ServiceAccountReady, RoleReady, RoleBindingReady,
    KeystoneServiceReady }

  function PrepareCeilometer(rest: Program): Program {
    Then(Rbac,
    Then(Transport,
    Then(ReadSecret(FromSpec),
    Then(ReadSecret(FromTransport),
    Then(MarkDone(InputReady),
    Then(Render(CeilometerCentral),
    Then(Render(CeilometerCompute), rest)))))))
  }

  function ServeCeilometer(rest: Program): Program {
    Then(MarkDone(ServiceConfigReady),
    Then(InitSecret,
    Then(Register(KeystoneService),
    Then(DefineWorkload,
    Then(Deploy,
    Then(OwnWorkload,
    Then(ScrapeService, rest)))))))
  }

  function CeilometerProgram(): Program {
    PrepareCeilometer(Then(Gate, ServeCeilometer(End)))
  }

  function DeleteCeilometer(): Program {
    Then(ReleaseFinalizer(KeystoneService), Then(DropFinalizer, End))
  }

  function Ceilometer(namespace: string, objectHash: map<Var, string> -> string): Reconciler {
    Reconciler("metric-storage-prometheus." + namespace + ".svc", CEILOMETER_CONDS,
               CeilometerProgram(), CeilometerProgram(), DeleteCeilometer(), objectHash, false, true)
  }

  // ---------------------------------------------------------------- shapes

  const AODH_DEPS: set<Dependent> := {Database, KeystoneService, KeystoneEndpoint}
  const CEILOMETER_DEPS: set<Dependent> := {KeystoneService}

  lemma NormalAodhLive(b: bool, rest: Program)
    requires Live(rest, AODH_DEPS, true)
    ensures Live(NormalAodh(b, rest), AODH_DEPS, true)
  {
    var x := if b then Public else Internal;
    var y := if b then Internal else Public;
    var p := Then(Publish, Then(Register(KeystoneEndpoint), rest));
    assert Live(p, AODH_DEPS, true);
    p := Then(Expose(y), Then(Address(y), p));
    assert Live(p, AODH_DEPS, true);
    p := Then(Expose(x), Then(Address(x), p));
    assert Live(p, AODH_DEPS, true);
    p := Then(DefineWorkload, Then(Deploy, Then(OwnWorkload, p)));
    assert Live(p, AODH_DEPS, true);
  }

  lemma InitAodhLive(rest: Program)
    requires Live(rest, AODH_DEPS, true)
    ensures Live(InitAodh(rest), AODH_DEPS, true)
  {
    var p := Then(AwaitDatabase, Then(SyncDatabase, rest));
    assert Live(p, AODH_DEPS, true);
    p := Then(Register(KeystoneService), Then(CreateDatabase, p));
    assert Live(p, AODH_DEPS, true);
  }

  lemma PrepareAutoscalingLive(rest: Program)
    requires Live(rest, AODH_DEPS, false)
    ensures Live(PrepareAutoscaling(rest), AODH_DEPS, false)
  {
    var p := Then(Prometheus, Then(Render(Aodh), rest));
    assert Live(p, AODH_DEPS, false);
    p := Then(Require(HeatReady), Then(ReadSecret(FromTransport), p));
    assert Live(p, AODH_DEPS, false);
    p := Then(ReadSecret(FromSpec), Then(Require(MemcachedReady), p));
    assert Live(p, AODH_DEPS, false);
    p := Then(MarkDone(ServiceConfigReady), Then(Transport, p));
    assert Live(p, AODH_DEPS, false);
  }

  lemma AutoscalingLive(b: bool)
    ensures Live(AutoscalingProgram(b), AODH_DEPS, false)
  {
    NormalAodhLive(b, End);
    InitAodhLive(NormalAodh(b, End));
    PrepareAutoscalingLive(Then(Gate, InitAodh(NormalAodh(b, End))));
  }

  lemma DeleteAodhLetsGo()
    ensures LetsGo(DeleteAodh(), AODH_DEPS)
  {
    var p1 := Then(ReleaseFinalizer(KeystoneEndpoint), Then(DropFinalizer, End));
    assert AODH_DEPS - {Database} - {KeystoneService} - {KeystoneEndpoint} == {};
    assert LetsGo(p1, AODH_DEPS - {Database} - {KeystoneService});
  }

  lemma AutoscalingDisciplined(namespace: string, objectHash: map<Var, string> -> string)
    ensures Disciplined(Autoscaling(namespace, objectHash), AODH_DEPS)
  {
    forall b: bool ensures Live(AutoscalingProgram(b), AODH_DEPS, false) {
      AutoscalingLive(b);
    }
    DeleteAodhLetsGo();
  }

  lemma NormalAodhNeverMarks(b: bool, c: Cond)
    ensures NeverMarksTrue(NormalAodh(b, End), c)
  {
    var x := if b then Public else Internal;
    var y := if b then Internal else Public;
    var p := Then(Publish, Then(Register(KeystoneEndpoint), End));
    assert NeverMarksTrue(p, c);
    p := Then(Expose(y), Then(Address(y), p));
    assert NeverMarksTrue(p, c);
    p := Then(Expose(x), Then(Address(x), p));
    assert NeverMarksTrue(p, c);
    p := Then(Deploy, Then(OwnWorkload, p));
    assert NeverMarksTrue(p, c);
  }

  lemma InitAodhNeverMarks(rest: Program, c: Cond)
    requires NeverMarksTrue(rest, c)
    ensures NeverMarksTrue(InitAodh(rest), c)
  {
    var p := Then(AwaitDatabase, Then(SyncDatabase, rest));
    assert NeverMarksTrue(p, c);
    p := Then(Register(KeystoneService), Then(CreateDatabase, p));
    assert NeverMarksTrue(p, c);
  }

  lemma PrepareAutoscalingNeverMarks(rest: Program, c: Cond)
    requires c != ServiceConfigReady && c != MemcachedReady && c != HeatReady
    requires NeverMarksTrue(rest, c)
    ensures NeverMarksTrue(PrepareAutoscaling(rest), c)
  {
    var p := Then(Prometheus, Then(Render(Aodh), rest));
    assert NeverMarksTrue(p, c);
    p := Then(Require(HeatReady), Then(ReadSecret(FromTransport), p));
    assert NeverMarksTrue(p, c);
    p := Then(ReadSecret(FromSpec), Then(Require(MemcachedReady), p));
    assert NeverMarksTrue(p, c);
    p := Then(MarkDone(ServiceConfigReady), Then(Transport, p));
    assert NeverMarksTrue(p, c);
  }

  /** The only conditions that an Autoscaling program marks True outright. */
  lemma AutoscalingNeverMarks(b: bool, c: Cond)
    requires c != ServiceConfigReady && c != MemcachedReady && c != HeatReady
    ensures NeverMarksTrue(AutoscalingProgram(b), c)
  {
    NormalAodhNeverMarks(b, c);
    InitAodhNeverMarks(NormalAodh(b, End), c);
    PrepareAutoscalingNeverMarks(Then(Gate, InitAodh(NormalAodh(b, End))), c);
  }

  lemma DeleteAodhNeverMarks(c: Cond)
    ensures NeverMarksTrue(DeleteAodh(), c)
  {
    assert NeverMarksTrue(Then(ReleaseFinalizer(KeystoneEndpoint), Then(DropFinalizer, End)), c);
  }

  lemma AutoscalingNeverRecovers(namespace: string, objectHash: map<Var, string> -> string)
    ensures NeverRecovers(Autoscaling(namespace, objectHash))
  {
    forall b: bool ensures NeverMarksTrue(AutoscalingProgram(b), InputReady) {
      AutoscalingNeverMarks(b, InputReady);
    }
    DeleteAodhNeverMarks(InputReady);
  }

  lemma ServeCeilometerLive(rest: Program)
    requires Live(rest, CEILOMETER_DEPS, true)
    ensures Live(ServeCeilometer(rest), CEILOMETER_DEPS, true)
  {
    var p := Then(OwnWorkload, Then(ScrapeService, rest));
    assert Live(p, CEILOMETER_DEPS, true);
    p := Then(DefineWorkload, Then(Deploy, p));
    assert Live(p, CEILOMETER_DEPS, true);
    p := Then(InitSecret, Then(Register(KeystoneService), p));
    assert Live(p, CEILOMETER_DEPS, true);
  }

  lemma PrepareCeilometerLive(rest: Program)
    requires Live(rest, CEILOMETER_DEPS, false)
    ensures Live(PrepareCeilometer(rest), CEILOMETER_DEPS, false)
  {
    var p := Then(Render(CeilometerCentral), Then(Render(CeilometerCompute), rest));
    assert Live(p, CEILOMETER_DEPS, false);
    p := Then(ReadSecret(FromTransport), Then(MarkDone(InputReady), p));
    assert Live(p, CEILOMETER_DEPS, false);
    p := Then(Transport, Then(ReadSecret(FromSpec), p));
    assert Live(p, CEILOMETER_DEPS, false);
  }

  lemma CeilometerDisciplined(namespace: string, objectHash: map<Var, string> -> string)
    ensures Disciplined(Ceilometer(namespace, objectHash), CEILOMETER_DEPS)
  {
    ServeCeilometerLive(End);
    PrepareCeilometerLive(Then(Gate, ServeCeilometer(End)));
    assert CEILOMETER_DEPS - {KeystoneService} == {};
    assert LetsGo(DeleteCeilometer(), CEILOMETER_DEPS);
  }
}
