/** Convergence of the hash gate once calls stop failing.

    The database hostname is learned behind the gate but is part of the
    configuration that is hashed in front of it, so Autoscaling needs up to two
    rounds of "record the hash, deploy on the next pass". */
module Convergence {
  import opened Conditions
  import opened Cluster
  import opened Stages
  import opened Safety
  import opened Programs

  /** Nobody interferes, every call goes through, everything required is ready. */
  ghost predicate Calm(o: Oracle) {
    && (forall st :: o.env(st) == [])
    && (forall st :: o.reply(st).err.Nil? && !o.reply(st).requeue)
    && (forall c :: o.isReady(c))
    && o.transportSecret != "" && o.patchMeta && o.patchStatus
  }

  /** A stored resource past its initialisation and not marked for deletion. */
  predicate Settled(s: Store) {
    && s.cr.Some? && s.cr.value.meta.ours && !s.cr.value.meta.deleting
    && s.cr.value.status.conditions.Some?
  }

  // ---------------------------------------------------------------- conditions of a calm run

  /** The conditions that a stage writes when it goes through. */
  function Writes(o: Oracle, st: Stage): Conds {
    match st
    case Rbac => RbacPart(o.rbac)
    case MarkDone(c) => map[c := True]
    case Require(c) => map[c := True]
    case Transport => map[RabbitMqTransportURLReady := True]
    case Register(d) => if o.mirror(d).Some? then map[RegisterCond(d) := o.mirror(d).value] else map[]
    case AwaitDatabase => map[DBReady := True]
    case SyncDatabase => map[DBSyncReady := True]
    case OwnWorkload => if o.replicas > 0 then map[DeploymentReady := True] else map[]
    case Publish => map[ExposeServiceReady := True]
    case _ => map[]
  }

  function Touched(o: Oracle, p: Program): Conds {
    match p
    case End => map[]
    case Then(st, rest) => Writes(o, st) + Touched(o, rest)
  }

  lemma Overlay(c: Conds, t: Cond, s: CondStatus)
    ensures c + map[] == c && c[t := s] == c + map[t := s]
  {
  }

  lemma OverlayAssoc(c: Conds, v: Conds, w: Conds)
    ensures c + v + w == c + (v + w)
  {
  }

  lemma JudgeInputWrites(k: Reconciler, o: Oracle, st: Stage, spec: Spec, m: Memo)
    requires JudgeInput(k, o, st, spec, m).Go? && m.status.conditions.Some? && BeforeGate(st)
    ensures var r := JudgeInput(k, o, st, spec, m).memo;
            r.status.conditions == Some(m.status.conditions.value + Writes(o, st))
  {
    Overlay(m.status.conditions.value,
            if st.MarkDone? || st.Require? then st.cond else RabbitMqTransportURLReady, True);
  }

  lemma JudgeInitWrites(k: Reconciler, o: Oracle, st: Stage, m: Memo)
    requires JudgeInit(k, o, st, m).Go? && m.status.conditions.Some? && InInit(st)
    ensures var r := JudgeInit(k, o, st, m).memo;
            r.status.conditions == Some(m.status.conditions.value + Writes(o, st))
  {
    var c := m.status.conditions.value;
    if st.Register? && o.mirror(st.dep).Some? {
      Overlay(c, RegisterCond(st.dep), o.mirror(st.dep).value);
    }
    Overlay(c, DBReady, True);
    Overlay(c, DBSyncReady, True);
  }

  lemma JudgeDeployWrites(k: Reconciler, o: Oracle, st: Stage, m: Memo)
    requires JudgeDeploy(k, o, st, m).Go? && m.status.conditions.Some? && !BeforeGate(st) && !InInit(st)
    ensures var r := JudgeDeploy(k, o, st, m).memo;
            r.status.conditions == Some(m.status.conditions.value + Writes(o, st))
  {
    var c := m.status.conditions.value;
    Overlay(c, DeploymentReady, True);
    Overlay(c, ExposeServiceReady, True);
  }

  lemma JudgeWrites(k: Reconciler, o: Oracle, st: Stage, spec: Spec, m: Memo)
    requires Judge(k, o, st, spec, m).Go? && m.status.conditions.Some?
    ensures var r := Judge(k, o, st, spec, m).memo;
            r.status.conditions == Some(m.status.conditions.value + Writes(o, st))
  {
    hide JudgeInput, JudgeInit, JudgeDeploy, Writes;
    if BeforeGate(st) {
      JudgeInputWrites(k, o, st, spec, m);
    } else if InInit(st) {
      JudgeInitWrites(k, o, st, m);
    } else {
      JudgeDeployWrites(k, o, st, m);
    }
  }

  /** A run that reaches the end of its program has overlaid exactly its writes. */
  lemma {:induction false} RunWrites(k: Reconciler, o: Oracle, p: Program, l: Local)
    requires l.memo.status.conditions.Some? && Run(k, o, p, l).Next?
    ensures Run(k, o, p, l).local.memo.status.conditions == Some(l.memo.status.conditions.value + Touched(o, p))
    decreases p
  {
    var c := l.memo.status.conditions.value;
    if p.End? {
      Overlay(c, Ready, True);
    } else {
      hide Judge, Writes;
      JudgeWrites(k, o, p.head, l.spec, l.memo);
      var f := Step(k, o, p.head, l);
      RunWrites(k, o, p.tail, f.local);
      OverlayAssoc(c, Writes(o, p.head), Touched(o, p.tail));
    }
  }

  // ---------------------------------------------------------------- calm steps

  /** One calm stage. */
  lemma CalmStep(k: Reconciler, o: Oracle, st: Stage, rest: Program, l: Local)
    requires Calm(o) && !st.DropFinalizer? && Judge(k, o, st, l.spec, l.memo).Go?
    ensures Run(k, o, Then(st, rest), l) ==
            Run(k, o, rest, l.(store := Touch(o, st, l.memo.inputHash, l.store),
                               memo := Judge(k, o, st, l.spec, l.memo).memo))
  {
  }

  function PromHost(k: Reconciler, spec: Spec): string {
    if spec.prometheusHost == "" then k.prometheusHost else spec.prometheusHost
  }

  function PromPort(spec: Spec): int {
    if spec.prometheusPort == 0 then PROMETHEUS_PORT else spec.prometheusPort
  }

  /** The variables that an Autoscaling pass hashes, for a given database hostname. */
  function AodhVars(k: Reconciler, o: Oracle, spec: Spec, hostname: string): map<Var, string> {
    map[][SecretVar(spec.secret) := o.secretHash(spec.secret)]
         [SecretVar(o.transportSecret) := o.secretHash(o.transportSecret)]
         [ScriptsVar(Aodh) := o.scripts(Aodh)]
         [ConfigVar(Aodh) :=
            o.config(Aodh, RenderInput(o.transportSecret, PromHost(k, spec), PromPort(spec), hostname))]
  }

  function AodhGoal(k: Reconciler, o: Oracle, spec: Spec, hostname: string): string {
    k.objectHash(AodhVars(k, o, spec, hostname))
  }

  /** What a memo has after the stages in front of the gate. */
  predicate PreparedFrom(k: Reconciler, o: Oracle, spec: Spec, m0: Memo, m: Memo) {
    && m.status.conditions.Some?
    && m.status == m0.status.(conditions := m.status.conditions, transportURLSecret := o.transportSecret,
                              prometheusHost := PromHost(k, spec), prometheusPort := PromPort(spec))
    && m.endpoints == m0.endpoints
    && m.vars == AodhVars(k, o, spec, m0.status.databaseHostname)
  }

  lemma CalmPrepare(k: Reconciler, o: Oracle, rest: Program, l: Local) returns (m: Memo)
    requires Calm(o) && l.memo.vars == map[]
    ensures Run(k, o, PrepareAutoscaling(rest), l) == Run(k, o, rest, l.(memo := m))
    ensures PreparedFrom(k, o, l.spec, l.memo, m)
  {
    hide Run;
    var p4 := Then(ReadSecret(FromTransport), Then(Prometheus, Then(Render(Aodh), rest)));
    m := CalmRequired(k, o, p4, l);
    var l4 := l.(memo := m);
    CalmStep(k, o, ReadSecret(FromTransport), p4.tail, l4);
    var l5 := l4.(memo := Judge(k, o, ReadSecret(FromTransport), l.spec, l4.memo).memo);
    CalmStep(k, o, Prometheus, p4.tail.tail, l5);
    var l6 := l5.(memo := Judge(k, o, Prometheus, l.spec, l5.memo).memo);
    CalmStep(k, o, Render(Aodh), rest, l6);
    m := Judge(k, o, Render(Aodh), l.spec, l6.memo).memo;
  }

  lemma CalmRequired(k: Reconciler, o: Oracle, rest: Program, l: Local) returns (m: Memo)
    requires Calm(o) && l.memo.vars == map[]
    ensures Run(k, o, Then(Rbac, Then(MarkDone(ServiceConfigReady), Then(Transport, Then(ReadSecret(FromSpec),
                      Then(Require(MemcachedReady), Then(Require(HeatReady), rest)))))), l)
            == Run(k, o, rest, l.(memo := m))
    ensures m.status == l.memo.status.(conditions := m.status.conditions, transportURLSecret := o.transportSecret)
    ensures m.status.conditions.Some? && m.endpoints == l.memo.endpoints
    ensures m.vars == map[][SecretVar(l.spec.secret) := o.secretHash(l.spec.secret)]
  {
    hide Run;
    var p5 := Then(Require(HeatReady), rest);
    var p4 := Then(Require(MemcachedReady), p5);
    var p3 := Then(ReadSecret(FromSpec), p4);
    var p2 := Then(Transport, p3);
    var p1 := Then(MarkDone(ServiceConfigReady), p2);
    CalmStep(k, o, Rbac, p1, l);
    var l1 := l.(memo := Judge(k, o, Rbac, l.spec, l.memo).memo);
    CalmStep(k, o, MarkDone(ServiceConfigReady), p2, l1);
    var l2 := l.(memo := Judge(k, o, MarkDone(ServiceConfigReady), l.spec, l1.memo).memo);
    CalmStep(k, o, Transport, p3, l2);
    var l3 := l.(memo := Judge(k, o, Transport, l.spec, l2.memo).memo);
    CalmStep(k, o, ReadSecret(FromSpec), p4, l3);
    var l4 := l.(memo := Judge(k, o, ReadSecret(FromSpec), l.spec, l3.memo).memo);
    CalmStep(k, o, Require(MemcachedReady), p5, l4);
    var l5 := l.(memo := Judge(k, o, Require(MemcachedReady), l.spec, l4.memo).memo);
    CalmStep(k, o, Require(HeatReady), rest, l5);
    m := Judge(k, o, Require(HeatReady), l.spec, l5.memo).memo;
  }

  /** What a memo has after reconcileInitAodh. */
  lemma CalmInit(k: Reconciler, o: Oracle, rest: Program, l: Local) returns (m: Memo)
    requires Calm(o) && l.memo.status.conditions.Some?
    ensures Run(k, o, InitAodh(rest), l) ==
            Run(k, o, rest, l.(store := Acquire(Acquire(l.store, KeystoneService), Database), memo := m))
    ensures m.status.conditions.Some? && m.inputHash == l.memo.inputHash && m.endpoints == l.memo.endpoints
    ensures m.status == l.memo.status.(conditions := m.status.conditions, databaseHostname := o.hostname,
                                       hash := l.memo.status.hash[DbSyncHash := o.jobHash])
  {
    hide Run, Acquire;
    var p2 := Then(CreateDatabase, Then(AwaitDatabase, Then(SyncDatabase, rest)));
    var m2 := CalmKeystone(k, o, p2, l);
    m := CalmDatabase(k, o, rest, l.(store := Acquire(l.store, KeystoneService), memo := m2));
  }

  lemma CalmKeystone(k: Reconciler, o: Oracle, rest: Program, l: Local) returns (m: Memo)
    requires Calm(o) && l.memo.status.conditions.Some?
    ensures Run(k, o, Then(InitSecret, Then(Register(KeystoneService), rest)), l) ==
            Run(k, o, rest, l.(store := Acquire(l.store, KeystoneService), memo := m))
    ensures m == l.memo.(status := l.memo.status.(conditions := m.status.conditions), marks := m.marks)
    ensures m.status.conditions.Some?
  {
    hide Run, Acquire;
    CalmStep(k, o, InitSecret, Then(Register(KeystoneService), rest), l);
    CalmStep(k, o, Register(KeystoneService), rest, l);
    m := Judge(k, o, Register(KeystoneService), l.spec, l.memo).memo;
  }

  lemma CalmDatabase(k: Reconciler, o: Oracle, rest: Program, l: Local) returns (m: Memo)
    requires Calm(o)
    ensures Run(k, o, Then(CreateDatabase, Then(AwaitDatabase, Then(SyncDatabase, rest))), l) ==
            Run(k, o, rest, l.(store := Acquire(l.store, Database), memo := m))
    ensures m.status.conditions.Some? && m.inputHash == l.memo.inputHash && m.endpoints == l.memo.endpoints
    ensures m.status == l.memo.status.(conditions := m.status.conditions, databaseHostname := o.hostname,
                                       hash := l.memo.status.hash[DbSyncHash := o.jobHash])
  {
    hide Run, Acquire;
    var p4 := Then(SyncDatabase, rest);
    CalmStep(k, o, CreateDatabase, Then(AwaitDatabase, p4), l);
    var l3 := l.(store := Acquire(l.store, Database));
    CalmStep(k, o, AwaitDatabase, p4, l3);
    m := Judge(k, o, AwaitDatabase, l.spec, l.memo).memo;
    m := CalmSync(k, o, rest, l3.(memo := m));
  }

  lemma CalmSync(k: Reconciler, o: Oracle, rest: Program, l: Local) returns (m: Memo)
    requires Calm(o)
    ensures Run(k, o, Then(SyncDatabase, rest), l) == Run(k, o, rest, l.(memo := m))
    ensures m.status.conditions.Some? && m.inputHash == l.memo.inputHash && m.endpoints == l.memo.endpoints
    ensures m.status == l.memo.status.(conditions := m.status.conditions,
                                       hash := l.memo.status.hash[DbSyncHash := o.jobHash])
  {
    hide Run;
    CalmStep(k, o, SyncDatabase, rest, l);
    m := Judge(k, o, SyncDatabase, l.spec, l.memo).memo;
  }

  function AodhEndpoints(o: Oracle): map<Endpoint, string> {
    map[Internal := o.address(Internal), Public := o.address(Public)]
  }

  /** What a memo has after reconcileNormalAodh, in whichever order the endpoints
      were visited. */
  lemma CalmNormal(k: Reconciler, o: Oracle, b: bool, l: Local) returns (m: Memo)
    requires Calm(o) && l.memo.endpoints == map[] && l.memo.status.conditions.Some?
    ensures Run(k, o, NormalAodh(b, End), l) ==
            Next(l.(store := Acquire(l.store.(workload := Some(l.memo.inputHash)), KeystoneEndpoint), memo := m))
    ensures m.status.conditions.Some?
    ensures m.status == l.memo.status.(conditions := m.status.conditions, readyCount := o.replicas,
                                       endpoints := AodhEndpoints(o))
  {
    hide Run;
    var x := if b then Public else Internal;
    var y := if b then Internal else Public;
    var p3 := Then(Publish, Then(Register(KeystoneEndpoint), End));
    var p2 := Then(Expose(x), Then(Address(x), Then(Expose(y), Then(Address(y), p3))));
    m := CalmDeploy(k, o, p2, l);
    var l1 := l.(store := l.store.(workload := Some(l.memo.inputHash)), memo := m);
    CalmEndpoints(k, o, x, y, p3, l1);
    EndpointsAnyOrder(o, b);
    var l2 := l1.(memo := m.(endpoints := AodhEndpoints(o)));
    m := CalmPublish(k, o, l2);
  }

  /** The endpoint map does not depend on the order of the visits. */
  lemma EndpointsAnyOrder(o: Oracle, b: bool)
    ensures var x := if b then Public else Internal;
            var y := if b then Internal else Public;
            map[][x := o.address(x)][y := o.address(y)] == AodhEndpoints(o)
  {
  }

  lemma CalmPublish(k: Reconciler, o: Oracle, l: Local) returns (m: Memo)
    requires Calm(o) && l.memo.status.conditions.Some?
    ensures Run(k, o, Then(Publish, Then(Register(KeystoneEndpoint), End)), l) ==
            Next(l.(store := Acquire(l.store, KeystoneEndpoint), memo := m))
    ensures m.status.conditions.Some?
    ensures m.status == l.memo.status.(conditions := m.status.conditions, endpoints := l.memo.endpoints)
  {
    CalmStep(k, o, Publish, Then(Register(KeystoneEndpoint), End), l);
    var l3 := l.(memo := Judge(k, o, Publish, l.spec, l.memo).memo);
    CalmStep(k, o, Register(KeystoneEndpoint), End, l3);
    m := Judge(k, o, Register(KeystoneEndpoint), l.spec, l3.memo).memo;
  }

  lemma CalmDeploy(k: Reconciler, o: Oracle, rest: Program, l: Local) returns (m: Memo)
    requires Calm(o) && l.memo.status.conditions.Some?
    ensures Run(k, o, Then(DefineWorkload, Then(Deploy, Then(OwnWorkload, rest))), l) ==
            Run(k, o, rest, l.(store := l.store.(workload := Some(l.memo.inputHash)), memo := m))
    ensures m.status.conditions.Some? && m.endpoints == l.memo.endpoints
    ensures m.status == l.memo.status.(conditions := m.status.conditions, readyCount := o.replicas)
  {
    hide Run;
    var p2 := Then(OwnWorkload, rest);
    CalmStep(k, o, DefineWorkload, Then(Deploy, p2), l);
    CalmStep(k, o, Deploy, p2, l);
    var l2 := l.(store := l.store.(workload := Some(l.memo.inputHash)));
    CalmStep(k, o, OwnWorkload, rest, l2);
    m := Judge(k, o, OwnWorkload, l.spec, l2.memo).memo;
  }

  lemma CalmEndpoints(k: Reconciler, o: Oracle, x: Endpoint, y: Endpoint, rest: Program, l: Local)
    requires Calm(o)
    ensures Run(k, o, Then(Expose(x), Then(Address(x), Then(Expose(y), Then(Address(y), rest)))), l) ==
            Run(k, o, rest, l.(memo := l.memo.(endpoints := l.memo.endpoints[x := o.address(x)][y := o.address(y)])))
  {
    hide Run;
    CalmEndpoint(k, o, x, Then(Expose(y), Then(Address(y), rest)), l);
    CalmEndpoint(k, o, y, rest, l.(memo := l.memo.(endpoints := l.memo.endpoints[x := o.address(x)])));
  }

  lemma CalmEndpoint(k: Reconciler, o: Oracle, e: Endpoint, rest: Program, l: Local)
    requires Calm(o)
    ensures Run(k, o, Then(Expose(e), Then(Address(e), rest)), l) ==
            Run(k, o, rest, l.(memo := l.memo.(endpoints := l.memo.endpoints[e := o.address(e)])))
  {
    hide Run;
    CalmStep(k, o, Expose(e), Then(Address(e), rest), l);
    CalmStep(k, o, Address(e), rest, l);
  }

  // ---------------------------------------------------------------- calm Autoscaling passes

  /** The conditions that a completed Autoscaling run has written. */
  function AodhTouched(o: Oracle): Conds {
    RbacPart(o.rbac)
    + (map[ServiceConfigReady := True] + (map[RabbitMqTransportURLReady := True]
    + (map[MemcachedReady := True] + (map[HeatReady := True] + LateTouched(o)))))
  }

  function LateTouched(o: Oracle): Conds {
    Writes(o, Register(KeystoneService)) + (map[DBReady := True] + (map[DBSyncReady := True]
    + (Writes(o, OwnWorkload) + (map[ExposeServiceReady := True] + Writes(o, Register(KeystoneEndpoint))))))
  }

  lemma Quiet(o: Oracle, st: Stage, rest: Program)
    requires Writes(o, st) == map[]
    ensures Touched(o, Then(st, rest)) == Touched(o, rest)
  {
  }

  lemma Writing(o: Oracle, st: Stage, rest: Program)
    ensures Touched(o, Then(st, rest)) == Writes(o, st) + Touched(o, rest)
  {
  }

  lemma ExposeQuiet(o: Oracle, e: Endpoint, rest: Program)
    ensures Touched(o, Then(Expose(e), Then(Address(e), rest))) == Touched(o, rest)
  {
  }

  lemma DeployTouched(o: Oracle, rest: Program)
    ensures Touched(o, Then(DefineWorkload, Then(Deploy, Then(OwnWorkload, rest)))) ==
            Writes(o, OwnWorkload) + Touched(o, rest)
  {
    Writing(o, OwnWorkload, rest);
    Quiet(o, Deploy, Then(OwnWorkload, rest));
    Quiet(o, DefineWorkload, Then(Deploy, Then(OwnWorkload, rest)));
  }

  lemma PublishTouched(o: Oracle)
    ensures Touched(o, Then(Publish, Then(Register(KeystoneEndpoint), End))) ==
            map[ExposeServiceReady := True] + Writes(o, Register(KeystoneEndpoint))
  {
    var p := Then(Register(KeystoneEndpoint), End);
    assert Touched(o, p) == Writes(o, Register(KeystoneEndpoint));
    Writing(o, Publish, p);
  }

  lemma NormalAodhTouched(o: Oracle, b: bool)
    ensures Touched(o, NormalAodh(b, End)) ==
            Writes(o, OwnWorkload) + (map[ExposeServiceReady := True] + Writes(o, Register(KeystoneEndpoint)))
  {
    hide Touched, Writes;
    var x := if b then Public else Internal;
    var y := if b then Internal else Public;
    var p := Then(Publish, Then(Register(KeystoneEndpoint), End));
    PublishTouched(o);
    ExposeQuiet(o, y, p); p := Then(Expose(y), Then(Address(y), p));
    ExposeQuiet(o, x, p); p := Then(Expose(x), Then(Address(x), p));
    DeployTouched(o, p);
  }

  lemma InitAodhTouched(o: Oracle, rest: Program)
    ensures Touched(o, InitAodh(rest)) ==
            Writes(o, Register(KeystoneService))
            + (map[DBReady := True] + (map[DBSyncReady := True] + Touched(o, rest)))
  {
    hide Touched;
    var p := rest;
    Writing(o, SyncDatabase, p); p := Then(SyncDatabase, p);
    Writing(o, AwaitDatabase, p); p := Then(AwaitDatabase, p);
    Quiet(o, CreateDatabase, p); p := Then(CreateDatabase, p);
    Writing(o, Register(KeystoneService), p); p := Then(Register(KeystoneService), p);
    Quiet(o, InitSecret, p);
  }

  lemma PrepareAutoscalingTouched(o: Oracle, rest: Program)
    ensures Touched(o, PrepareAutoscaling(rest)) ==
            RbacPart(o.rbac) + (map[ServiceConfigReady := True] + (map[RabbitMqTransportURLReady := True]
            + (map[MemcachedReady := True] + (map[HeatReady := True] + Touched(o, rest)))))
  {
    hide Touched;
    var p := rest;
    Quiet(o, Render(Aodh), p); p := Then(Render(Aodh), p);
    Quiet(o, Prometheus, p); p := Then(Prometheus, p);
    Quiet(o, ReadSecret(FromTransport), p); p := Then(ReadSecret(FromTransport), p);
    Writing(o, Require(HeatReady), p); p := Then(Require(HeatReady), p);
    Writing(o, Require(MemcachedReady), p); p := Then(Require(MemcachedReady), p);
    Quiet(o, ReadSecret(FromSpec), p); p := Then(ReadSecret(FromSpec), p);
    Writing(o, Transport, p); p := Then(Transport, p);
    Writing(o, MarkDone(ServiceConfigReady), p); p := Then(MarkDone(ServiceConfigReady), p);
    Writing(o, Rbac, p);
  }

  lemma AutoscalingTouched(o: Oracle, b: bool)
    ensures Touched(o, AutoscalingProgram(b)) == AodhTouched(o)
  {
    hide Touched, Writes, NormalAodh, InitAodh, PrepareAutoscaling;
    NormalAodhTouched(o, b);
    var p := NormalAodh(b, End);
    InitAodhTouched(o, p); p := InitAodh(p);
    GateQuiet(o, p); p := Then(Gate, p);
    PrepareAutoscalingTouched(o, p);
  }

  lemma GateQuiet(o: Oracle, rest: Program)
    ensures Touched(o, Then(Gate, rest)) == Touched(o, rest)
  {
  }

  /** The whole status after a calm pass that the gate let through. */
  function AodhFinal(k: Reconciler, o: Oracle, cr: Resource, h: string): Status
    requires cr.status.conditions.Some?
  {
    Status(Some(WithReady(cr.status.conditions.value + AodhTouched(o))),
           cr.status.hash[InputHash := h][DbSyncHash := o.jobHash],
           o.transportSecret, o.hostname, PromHost(k, cr.spec), PromPort(cr.spec), o.replicas, AodhEndpoints(o))
  }

  function AodhStore(s: Store, h: string): Store {
    Acquire(Acquire(Acquire(s, KeystoneService), Database).(workload := Some(h)), KeystoneEndpoint)
  }

  /** A calm run of the Autoscaling program, closed form: either the gate records
      the hash of the current configuration and stops, or everything is deployed
      with the recorded hash. */
  lemma CalmRun(k: Reconciler, o: Oracle, s: Store, cr: Resource)
    requires Calm(o) && cr.status.conditions.Some?
    requires Normal(k, o.publicFirst) == AutoscalingProgram(o.publicFirst)
    ensures var h := AodhGoal(k, o, cr.spec, cr.status.databaseHostname);
            var f := Run(k, o, Normal(k, o.publicFirst), Begin(s, cr));
            var r := f.local;
            && r.meta == cr.meta && r.memo.status.conditions.Some?
            && if Lookup(cr.status.hash, InputHash) != h
               then f.Stop? && f.result == DONE && r.store == s
                    && r.memo.status == cr.status.(conditions := r.memo.status.conditions,
                         transportURLSecret := o.transportSecret, prometheusHost := PromHost(k, cr.spec),
                         prometheusPort := PromPort(cr.spec), hash := cr.status.hash[InputHash := h])
               else f.Next? && r.store == AodhStore(s, h)
                    && Refreshed(o, r.memo.status) == AodhFinal(k, o, cr, h)
  {
    hide AodhGoal, AodhTouched, WithReady;
    var l := Begin(s, cr);
    var late := InitAodh(NormalAodh(o.publicFirst, End));
    AodhGoalOf(k, o, cr);
    var m := CalmPrepare(k, o, Then(Gate, late), l);
    var l1 := l.(memo := m);
    var h := AodhGoal(k, o, cr.spec, cr.status.databaseHostname);
    if Lookup(cr.status.hash, InputHash) == h {
      CalmStep(k, o, Gate, late, l1);
      var l2 := l1.(memo := Judge(k, o, Gate, l.spec, m).memo);
      var m3 := CalmInit(k, o, NormalAodh(o.publicFirst, End), l2);
      var l3 := l2.(store := Acquire(Acquire(s, KeystoneService), Database), memo := m3);
      var m4 := CalmNormal(k, o, o.publicFirst, l3);
      RunWrites(k, o, Normal(k, o.publicFirst), l);
      AutoscalingTouched(o, o.publicFirst);
    } else {
      assert Acts(s, o.env(Gate)) == s;
    }
  }

  lemma AodhGoalOf(k: Reconciler, o: Oracle, cr: Resource)
    ensures AodhGoal(k, o, cr.spec, cr.status.databaseHostname) ==
            k.objectHash(AodhVars(k, o, cr.spec, cr.status.databaseHostname))
  {
  }

  /** A calm Autoscaling pass on a settled resource, closed form. */
  lemma CalmPass(k: Reconciler, o: Oracle, s: Store)
    requires Calm(o) && Settled(s) && Normal(k, o.publicFirst) == AutoscalingProgram(o.publicFirst)
    ensures var cr := s.cr.value;
            var h := AodhGoal(k, o, cr.spec, cr.status.databaseHostname);
            var r := Reconcile(k, o, s);
            && Settled(r) && r.cr.value.spec == cr.spec
            && if Lookup(cr.status.hash, InputHash) != h
               then Recorded(r, h) && r.workload == s.workload
                    && r.cr.value.status.databaseHostname == cr.status.databaseHostname
               else r == AodhStore(s, h).(cr := Some(cr.(status := AodhFinal(k, o, cr, h))))
  {
    var cr := s.cr.value;
    CalmRun(k, o, s, cr);
    CalmFinish(k, o, s, Run(k, o, Normal(k, o.publicFirst), Begin(s, cr)));
  }

  /** The deferred write of a calm pass that did not touch the finalizer. */
  lemma CalmFinish(k: Reconciler, o: Oracle, s: Store, f: Flow)
    requires Calm(o) && Settled(s) && f == Run(k, o, Normal(k, o.publicFirst), Begin(s, s.cr.value))
    requires f.local.meta == s.cr.value.meta && f.local.store.cr == s.cr
    ensures Reconcile(k, o, s) == f.local.store.(cr := Some(s.cr.value.(status := Refreshed(o, f.local.memo.status))))
  {
    hide Judge;
    assert Acts(s, o.env(Fetch)) == s;
    assert Acts(f.local.store, o.env(Patch)) == f.local.store;
    assert Body(k, o, s, s.cr.value) == f;
    var out := FinishFlow(k, o, s.cr.value, f);
    assert out.store == Patched(o, s.cr.value, s.cr.value.meta.ours, Refreshed(o, f.local.memo.status), f.local.store);
  }

  /** The answers agree on everything that is hashed. */
  ghost predicate SameHashed(x: Oracle, o: Oracle) {
    && x.transportSecret == o.transportSecret && x.secretHash == o.secretHash
    && x.scripts == o.scripts && x.config == o.config
  }

  /** And on the database hostname. They may differ in the rest: replicas, mirrored and
      RBAC conditions, job hash, endpoint addresses, and the order in which the endpoints
      are visited. */
  ghost predicate SameInputs(x: Oracle, o: Oracle) {
    SameHashed(x, o) && x.hostname == o.hostname
  }

  /** Calm passes with the inputs of `o`. */
  ghost predicate CalmPasses(os: seq<Oracle>, o: Oracle) {
    forall i :: 0 <= i < |os| ==> Calm(os[i]) && SameInputs(os[i], o)
  }

  /** A run of passes, one after the other. */
  function Turns(k: Reconciler, os: seq<Oracle>, s: Store): Store
    decreases |os|
  {
    if os == [] then s else Reconcile(k, os[|os| - 1], Turns(k, os[..|os| - 1], s))
  }

  /** The gate is open for the final configuration. */
  predicate Primed(k: Reconciler, o: Oracle, s: Store) {
    && Settled(s)
    && s.cr.value.status.databaseHostname == o.hostname
    && Recorded(s, AodhGoal(k, o, s.cr.value.spec, o.hostname))
  }

  /** The resource and the workload agree on the final configuration. */
  predicate ConvergedTo(k: Reconciler, o: Oracle, s: Store) {
    Primed(k, o, s) && s.workload == Some(AodhGoal(k, o, s.cr.value.spec, o.hostname))
  }

  lemma SameGoal(k: Reconciler, x: Oracle, o: Oracle, spec: Spec, hostname: string)
    requires SameInputs(x, o)
    ensures AodhGoal(k, x, spec, hostname) == AodhGoal(k, o, spec, hostname)
  {
  }

  /** One pass of such a run, as seen by the gate. */
  lemma Turn(k: Reconciler, o: Oracle, x: Oracle, s: Store) returns (r: Store)
    requires Calm(x) && SameInputs(x, o) && Settled(s)
    requires Normal(k, x.publicFirst) == AutoscalingProgram(x.publicFirst)
    ensures r == Reconcile(k, x, s)
    ensures var cr := s.cr.value;
            var h := AodhGoal(k, o, cr.spec, cr.status.databaseHostname);
            && Settled(r) && r.cr.value.spec == cr.spec
            && if !Recorded(s, h)
               then Recorded(r, h) && r.workload == s.workload
                    && r.cr.value.status.databaseHostname == cr.status.databaseHostname
               else Recorded(r, h) && r.workload == Some(h) && r.cr.value.status.databaseHostname == o.hostname
  {
    hide Reconcile, AodhGoal, AodhStore, AodhFinal, AutoscalingProgram, Normal;
    r := Reconcile(k, x, s);
    var cr := s.cr.value;
    SameGoal(k, x, o, cr.spec, cr.status.databaseHostname);
    CalmPass(k, x, s);
    DeployedFacts(k, x, s, cr, AodhGoal(k, o, cr.spec, cr.status.databaseHostname));
  }

  /** Through an open gate a pass deploys the final configuration, and keeps it open. */
  lemma PrimedConverges(k: Reconciler, o: Oracle, x: Oracle, s: Store)
    requires Calm(x) && SameInputs(x, o) && Primed(k, o, s)
    requires Normal(k, x.publicFirst) == AutoscalingProgram(x.publicFirst)
    ensures ConvergedTo(k, o, Reconcile(k, x, s))
  {
    hide Reconcile, AodhGoal, AutoscalingProgram, Normal;
    var r := Turn(k, o, x, s);
  }

  /** Three passes, from any settled state, whatever hash and hostname it has recorded. */
  lemma ThreeTurns(k: Reconciler, o: Oracle, s: Store, os: seq<Oracle>)
    requires Settled(s) && |os| == 3 && CalmPasses(os, o)
    requires forall b: bool :: Normal(k, b) == AutoscalingProgram(b)
    ensures var st := s.cr.value.status;
            var first := AodhGoal(k, o, s.cr.value.spec, st.databaseHostname);
            var r := Turns(k, os, s);
            && Primed(k, o, r)
            && (ConvergedTo(k, o, r) <==> Recorded(s, first) || first == AodhGoal(k, o, s.cr.value.spec, o.hostname))
  {
    hide Reconcile, AodhGoal, AutoscalingProgram, Normal, Turns, Calm, SameInputs;
    var s1 := Turn(k, o, os[0], s);
    var s2 := Turn(k, o, os[1], s1);
    var s3 := Turn(k, o, os[2], s2);
    UnrollThree(k, os, s);
  }

  lemma UnrollThree(k: Reconciler, os: seq<Oracle>, s: Store)
    requires |os| == 3
    ensures Turns(k, os, s) == Reconcile(k, os[2], Reconcile(k, os[1], Reconcile(k, os[0], s)))
  {
    hide Reconcile;
    assert os[..2][..1][..0] == [] && os[..2][..1][0] == os[0] && os[..2][1] == os[1];
    assert Turns(k, os[..2][..1], s) == Reconcile(k, os[0], s);
  }

  lemma {:induction false} TurnsPrime(k: Reconciler, o: Oracle, s: Store, os: seq<Oracle>)
    requires Settled(s) && |os| >= 3 && CalmPasses(os, o)
    requires forall b: bool :: Normal(k, b) == AutoscalingProgram(b)
    ensures Primed(k, o, Turns(k, os, s)) && (|os| > 3 ==> ConvergedTo(k, o, Turns(k, os, s)))
    decreases |os|
  {
    hide Reconcile, AodhGoal, AutoscalingProgram, Normal, Calm, SameInputs, Primed;
    if |os| == 3 {
      ThreeTurns(k, o, s, os);
    } else {
      var n := |os| - 1;
      TurnsPrime(k, o, s, os[..n]);
      PrimedConverges(k, o, os[n], Turns(k, os[..n], s));
    }
  }

  /** Four or more calm passes that agree on the inputs converge, from any settled state,
      whatever hash and hostname it has recorded. Three do so exactly when the first gate
      was already open or the old and the new hostname give the same configuration hash. */
  lemma AutoscalingConverges(
    namespace: string, objectHash: map<Var, string> -> string, o: Oracle, s: Store, os: seq<Oracle>)
    requires Settled(s) && |os| >= 4 && CalmPasses(os, o)
    ensures var k := Autoscaling(namespace, objectHash);
            ConvergedTo(k, o, Turns(k, os, s))
    ensures var k := Autoscaling(namespace, objectHash);
            var goal := AodhGoal(k, o, s.cr.value.spec, o.hostname);
            var first := AodhGoal(k, o, s.cr.value.spec, s.cr.value.status.databaseHostname);
            ConvergedTo(k, o, Turns(k, os[..3], s)) <==> Recorded(s, first) || first == goal
  {
    hide Reconcile, AodhGoal, AutoscalingProgram, DeleteAodh, Turns, Calm, SameInputs, ConvergedTo;
    var k := Autoscaling(namespace, objectHash);
    TurnsPrime(k, o, s, os);
    ThreeTurns(k, o, s, os[..3]);
  }

  /** And every further calm pass that agrees on the inputs keeps it so. */
  lemma {:induction false} AutoscalingStaysConverged(
    namespace: string, objectHash: map<Var, string> -> string, o: Oracle, s: Store, os: seq<Oracle>)
    requires CalmPasses(os, o) && ConvergedTo(Autoscaling(namespace, objectHash), o, s)
    ensures var k := Autoscaling(namespace, objectHash); ConvergedTo(k, o, Turns(k, os, s))
    decreases |os|
  {
    if os != [] {
      hide Reconcile, AodhGoal, AutoscalingProgram, DeleteAodh, Calm, SameInputs;
      var k := Autoscaling(namespace, objectHash);
      var n := |os| - 1;
      AutoscalingStaysConverged(namespace, objectHash, o, s, os[..n]);
      PrimedConverges(k, o, os[n], Turns(k, os[..n], s));
    }
  }

  // ---------------------------------------------------------------- bring-up of a new resource

  /** A stored resource, perhaps new, that is not marked for deletion. */
  predicate Alive(s: Store) {
    s.cr.Some? && !s.cr.value.meta.deleting
  }

  /** A calm pass on a resource that is not settled adds the finalizer or else the
      condition list, and touches nothing else. */
  lemma InitPass(k: Reconciler, o: Oracle, s: Store)
    requires Calm(o) && Alive(s) && !Settled(s)
    ensures var r := Reconcile(k, o, s);
            && Alive(r) && r.cr.value.spec == s.cr.value.spec && r.cr.value.meta.ours
            && r.workload == s.workload && (s.cr.value.meta.ours ==> Settled(r))
  {
    var cr := s.cr.value;
    assert Acts(s, o.env(Fetch)) == s && Acts(s, o.env(Patch)) == s;
    hide Run;
  }

  /** A calm pass keeps a live resource and its spec. */
  lemma CalmKeepsLive(k: Reconciler, o: Oracle, s: Store)
    requires Calm(o) && Alive(s) && Normal(k, o.publicFirst) == AutoscalingProgram(o.publicFirst)
    ensures var r := Reconcile(k, o, s);
            Alive(r) && r.cr.value.spec == s.cr.value.spec && (Settled(s) ==> Settled(r))
  {
    hide Reconcile, AodhGoal, AutoscalingProgram, Normal, AodhStore, AodhFinal;
    if Settled(s) {
      CalmPass(k, o, s);
    } else {
      InitPass(k, o, s);
    }
  }

  lemma {:induction false} TurnsSplit(k: Reconciler, os: seq<Oracle>, n: nat, s: Store)
    requires n <= |os|
    ensures Turns(k, os, s) == Turns(k, os[n..], Turns(k, os[..n], s))
    decreases |os|
  {
    hide Reconcile;
    if n < |os| {
      var last := |os| - 1;
      TurnsSplit(k, os[..last], n, s);
      assert os[..last][..n] == os[..n] && os[..last][n..] == os[n..][..last - n];
    } else {
      assert os[..n] == os && os[n..] == [];
    }
  }

  /** Two calm passes settle any live resource. */
  lemma TwoTurnsSettle(k: Reconciler, o: Oracle, s: Store, os: seq<Oracle>)
    requires Alive(s) && |os| == 2 && CalmPasses(os, o)
    requires forall b: bool :: Normal(k, b) == AutoscalingProgram(b)
    ensures var r := Turns(k, os, s); Settled(r) && r.cr.value.spec == s.cr.value.spec
  {
    hide Reconcile, AutoscalingProgram, Normal, Calm, SameInputs;
    assert os[..1][..0] == [] && os[..1][0] == os[0];
    assert Turns(k, os[..1], s) == Reconcile(k, os[0], s);
    var s1 := Reconcile(k, os[0], s);
    CalmKeepsLive(k, os[0], s);
    CalmKeepsLive(k, os[1], s1);
    if !Settled(s) { InitPass(k, os[0], s); }
    if !Settled(s1) { InitPass(k, os[1], s1); }
  }

  /** Bring-up: from any live resource, a new one included, six or more calm passes that
      agree on the inputs converge. */
  lemma AutoscalingBringUp(
    namespace: string, objectHash: map<Var, string> -> string, o: Oracle, s: Store, os: seq<Oracle>)
    requires Alive(s) && |os| >= 6 && CalmPasses(os, o)
    ensures var k := Autoscaling(namespace, objectHash);
            var r := Turns(k, os, s);
            ConvergedTo(k, o, r) && r.cr.value.spec == s.cr.value.spec
  {
    hide Reconcile, AodhGoal, AutoscalingProgram, DeleteAodh, Turns, Calm, SameInputs;
    var k := Autoscaling(namespace, objectHash);
    TwoTurnsSettle(k, o, s, os[..2]);
    TurnsSplit(k, os, 2, s);
    AutoscalingConverges(namespace, objectHash, o, Turns(k, os[..2], s), os[2..]);
    TurnsKeepSpec(k, s, os);
  }

  lemma {:induction false} TurnsKeepSpec(k: Reconciler, s: Store, os: seq<Oracle>)
    requires Alive(s) && forall i :: 0 <= i < |os| ==> Calm(os[i])
    requires forall b: bool :: Normal(k, b) == AutoscalingProgram(b)
    ensures var r := Turns(k, os, s); Alive(r) && r.cr.value.spec == s.cr.value.spec
    decreases |os|
  {
    hide Reconcile, AutoscalingProgram, Normal, Calm;
    if os != [] {
      var n := |os| - 1;
      TurnsKeepSpec(k, s, os[..n]);
      CalmKeepsLive(k, os[n], Turns(k, os[..n], s));
    }
  }

  /** Convergence is driven by the resource's own wake-ups: a calm pass that leaves the
      stored resource unchanged, and so does not wake it again, has converged. */
  lemma UnchangedHasConverged(namespace: string, objectHash: map<Var, string> -> string, o: Oracle, s: Store)
    requires Calm(o) && Settled(s)
    ensures var k := Autoscaling(namespace, objectHash);
            var r := Reconcile(k, o, s);
            r.cr == s.cr ==> ConvergedTo(k, o, r)
  {
    hide Reconcile, AodhGoal, AutoscalingProgram, DeleteAodh;
    var r := Turn(Autoscaling(namespace, objectHash), o, o, s);
  }

  lemma DeployedFacts(k: Reconciler, o: Oracle, s: Store, cr: Resource, h: string)
    requires cr.status.conditions.Some?
    ensures AodhStore(s, h).workload == Some(h)
    ensures var st := AodhFinal(k, o, cr, h);
            Lookup(st.hash, InputHash) == h && st.databaseHostname == o.hostname && st.conditions.Some?
  {
  }

  // ---------------------------------------------------------------- quiescence and readiness

  lemma {:induction false} TouchedNotReady(o: Oracle, p: Program)
    requires NeverMarksTrue(p, Ready)
    ensures Ready !in Touched(o, p)
    decreases p
  {
    if p.Then? {
      TouchedNotReady(o, p.tail);
      assert Ready !in Writes(o, p.head);
    }
  }

  lemma ReadyIdempotent(c: Conds, t: Conds)
    requires Ready !in t
    ensures WithReady(WithReady(c + t) + t) == WithReady(c + t)
  {
    var x := WithReady(c + t);
    assert x + t == x;
    assert AllSubTrue(x) <==> AllSubTrue(c + t);
    assert SomeSubFalse(x) <==> SomeSubFalse(c + t) by {
      if SomeSubFalse(c + t) {
        var u :| u in c + t && u != Ready && (c + t)[u] == False;
        assert u in x && x[u] == False;
      }
    }
  }

  lemma AcquireIdempotent(s: Store, d: Dependent)
    requires HoldsOurs(s, d)
    ensures Acquire(s, d) == s
  {
  }

  /** After a completed calm pass that did not change the hostname, another calm
      pass changes nothing at all. */
  lemma CompletedIsFixpoint(k: Reconciler, o: Oracle, s: Store, b: bool)
    requires Calm(o) && Settled(s)
    requires Normal(k, b) == AutoscalingProgram(b) && Normal(k, o.publicFirst) == AutoscalingProgram(o.publicFirst)
    requires s.cr.value.status.databaseHostname == o.hostname
    requires Recorded(s, AodhGoal(k, o, s.cr.value.spec, o.hostname))
    ensures var r := Reconcile(k, o, s);
            Reconcile(k, o.(publicFirst := b), r) == r
  {
    hide Reconcile;
    var cr := s.cr.value;
    var h := AodhGoal(k, o, cr.spec, o.hostname);
    var o' := o.(publicFirst := b);
    CalmPass(k, o, s);
    var r := Reconcile(k, o, s);
    SameGoal(k, o', o, cr.spec, o.hostname);
    HashIdempotent(cr.status.hash, h, o.jobHash);
    CalmPass(k, o', r);
    FinalIdempotent(k, o, cr, h, b);
    AodhStoreIdempotent(s, h, r.cr);
  }

  lemma FinalIdempotent(k: Reconciler, o: Oracle, cr: Resource, h: string, b: bool)
    requires cr.status.conditions.Some?
    ensures var done := cr.(status := AodhFinal(k, o, cr, h));
            AodhFinal(k, o.(publicFirst := b), done, h) == AodhFinal(k, o, cr, h)
  {
    AodhTouchedFacts(o, b);
    ReadyIdempotent(cr.status.conditions.value, AodhTouched(o));
    HashIdempotent(cr.status.hash, h, o.jobHash);
    SameFinal(k, o, o.(publicFirst := b), cr.(status := AodhFinal(k, o, cr, h)), h);
  }

  lemma AodhTouchedFacts(o: Oracle, b: bool)
    ensures AodhTouched(o.(publicFirst := b)) == AodhTouched(o) && Ready !in AodhTouched(o)
  {
    TouchedAnyOrder(o, b);
    AodhTouchedNotReady(o);
  }

  lemma WritesAnyOrder(o: Oracle, b: bool, st: Stage)
    ensures Writes(o.(publicFirst := b), st) == Writes(o, st)
  {
  }

  lemma TouchedAnyOrder(o: Oracle, b: bool)
    ensures AodhTouched(o.(publicFirst := b)) == AodhTouched(o)
  {
    hide Writes, RbacPart;
    WritesAnyOrder(o, b, Register(KeystoneService));
    WritesAnyOrder(o, b, Register(KeystoneEndpoint));
    WritesAnyOrder(o, b, OwnWorkload);
  }

  lemma AodhTouchedNotReady(o: Oracle)
    ensures Ready !in AodhTouched(o)
  {
    hide AutoscalingProgram, NeverMarksTrue, Touched, AodhTouched;
    var p := AutoscalingProgram(true);
    AutoscalingNeverMarks(true, Ready);
    AutoscalingTouched(o, true);
    NotReadyVia(o, p, AodhTouched(o));
  }

  lemma NotReadyVia(o: Oracle, p: Program, w: Conds)
    requires NeverMarksTrue(p, Ready) && Touched(o, p) == w
    ensures Ready !in w
  {
    TouchedNotReady(o, p);
  }

  lemma SameFinal(k: Reconciler, o: Oracle, o': Oracle, cr: Resource, h: string)
    requires cr.status.conditions.Some? && o' == o.(publicFirst := o'.publicFirst)
    requires AodhTouched(o') == AodhTouched(o)
    ensures AodhFinal(k, o', cr, h) == AodhFinal(k, o, cr, h)
  {
  }

  lemma HashIdempotent(m: map<HashKey, string>, h: string, j: string)
    ensures var x := m[InputHash := h][DbSyncHash := j];
            x[InputHash := h][DbSyncHash := j] == x && Lookup(x, InputHash) == h
  {
  }

  lemma AodhStoreIdempotent(s: Store, h: string, cr: Option<Resource>)
    ensures var r := AodhStore(s, h).(cr := cr); AodhStore(r, h) == r
  {
    var r := AodhStore(s, h).(cr := cr);
    assert forall d :: HoldsOurs(r, d) <==> HoldsOurs(AodhStore(s, h), d);
    AcquireIdempotent(r, KeystoneService);
    AcquireIdempotent(r, Database);
    AcquireIdempotent(r, KeystoneEndpoint);
    assert r.(workload := Some(h)) == r;
  }

  /** After the passes of AutoscalingConverges the next calm pass with the same answers
      is a no-op: nothing is written, so nothing wakes the reconciler again. */
  lemma AutoscalingQuiescent(
    namespace: string, objectHash: map<Var, string> -> string, o: Oracle, s: Store, os: seq<Oracle>, b: bool)
    requires Settled(s) && |os| >= 4 && CalmPasses(os, o)
    ensures var k := Autoscaling(namespace, objectHash);
            var r := Turns(k, os, s);
            Reconcile(k, os[|os| - 1].(publicFirst := b), r) == r
  {
    hide Reconcile, AodhGoal, AutoscalingProgram, DeleteAodh, Calm;
    var k := Autoscaling(namespace, objectHash);
    var n := |os| - 1;
    var before := Turns(k, os[..n], s);
    TurnsPrime(k, o, s, os[..n]);
    SameGoal(k, os[n], o, before.cr.value.spec, o.hostname);
    CompletedIsFixpoint(k, os[n], before, b);
  }

  /** And so is any number of further such passes. */
  lemma {:induction false} AutoscalingStaysQuiet(
    namespace: string, objectHash: map<Var, string> -> string, o: Oracle, s: Store, os: seq<Oracle>, more: seq<Oracle>)
    requires Settled(s) && |os| >= 4 && CalmPasses(os, o)
    requires forall i :: 0 <= i < |more| ==> more[i] == os[|os| - 1].(publicFirst := more[i].publicFirst)
    ensures var k := Autoscaling(namespace, objectHash);
            var r := Turns(k, os, s);
            Turns(k, more, r) == r
    decreases |more|
  {
    if more != [] {
      hide Reconcile, Autoscaling, CalmPasses;
      var n := |more| - 1;
      AutoscalingStaysQuiet(namespace, objectHash, o, s, os, more[..n]);
      AutoscalingQuiescent(namespace, objectHash, o, s, os, more[n].publicFirst);
    }
  }

  /** Everything outside the operator reports success. */
  predicate Happy(o: Oracle) {
    && (forall t :: t in RBAC ==> t in o.rbac && o.rbac[t] == True)
    && (forall d :: o.mirror(d) == Some(True))
    && o.replicas > 0
  }

  /** All the entries of the map are True, and these are its keys. */
  predicate TrueOn(w: Conds, keys: set<Cond>) {
    forall t :: (t in w <==> t in keys) && (t in w ==> w[t] == True)
  }

  const LATE_WRITTEN: set<Cond> := {
    KeystoneServiceReady, DBReady, DBSyncReady, DeploymentReady, ExposeServiceReady, KeystoneEndpointReady }

  const AODH_WRITTEN: set<Cond> := AUTOSCALING_CONDS + {ExposeServiceReady}

  lemma TrueOnUnion(t: Cond, v: Conds, w: Conds, ks: set<Cond>)
    requires v == map[t := True] && TrueOn(w, ks)
    ensures TrueOn(v + w, ks + {t})
  {
  }

  lemma HappyLate(o: Oracle)
    requires Happy(o)
    ensures TrueOn(LateTouched(o), LATE_WRITTEN)
  {
    var w := Writes(o, OwnWorkload) + (map[ExposeServiceReady := True] + Writes(o, Register(KeystoneEndpoint)));
    var ks := {DeploymentReady, ExposeServiceReady, KeystoneEndpointReady};
    HappyPublished(o);
    HappyDatabase(w, ks);
    assert Writes(o, Register(KeystoneService)) == map[KeystoneServiceReady := True];
    TrueOnUnion(KeystoneServiceReady, Writes(o, Register(KeystoneService)),
                map[DBReady := True] + (map[DBSyncReady := True] + w), ks + {DBSyncReady} + {DBReady});
    assert ks + {DBSyncReady} + {DBReady} + {KeystoneServiceReady} == LATE_WRITTEN;
  }

  lemma HappyPublished(o: Oracle)
    requires Happy(o)
    ensures TrueOn(Writes(o, OwnWorkload) + (map[ExposeServiceReady := True] + Writes(o, Register(KeystoneEndpoint))),
                   {DeploymentReady, ExposeServiceReady, KeystoneEndpointReady})
  {
  }

  lemma HappyDatabase(w: Conds, ks: set<Cond>)
    requires TrueOn(w, ks)
    ensures TrueOn(map[DBReady := True] + (map[DBSyncReady := True] + w), ks + {DBSyncReady} + {DBReady})
  {
  }

  lemma HappyTouched(o: Oracle)
    requires Happy(o)
    ensures TrueOn(AodhTouched(o), AODH_WRITTEN)
  {
    HappyLate(o);
    var w, ks := LateTouched(o), LATE_WRITTEN;
    assert TrueOn(w, ks);
    HappyRbac(o, EarlyTouched(w));
    EarlyTrue(w);
  }

  /** The part of AodhTouched between the RBAC conditions and the gate. */
  function EarlyTouched(w: Conds): Conds {
    map[ServiceConfigReady := True] + (map[RabbitMqTransportURLReady := True]
    + (map[MemcachedReady := True] + (map[HeatReady := True] + w)))
  }

  const EARLY_WRITTEN: set<Cond> := {ServiceConfigReady, RabbitMqTransportURLReady, MemcachedReady, HeatReady}

  lemma EarlyTrue(w: Conds)
    requires TrueOn(w, LATE_WRITTEN)
    ensures TrueOn(EarlyTouched(w), LATE_WRITTEN + EARLY_WRITTEN)
  {
  }

  lemma HappyRbac(o: Oracle, w: Conds)
    requires Happy(o)
    ensures TrueOn(w, LATE_WRITTEN + EARLY_WRITTEN) ==> TrueOn(RbacPart(o.rbac) + w, AODH_WRITTEN)
  {
  }

  lemma ReadyOver(c: Conds, w: Conds, keys: set<Cond>)
    requires TrueOn(w, keys)
    ensures AllSubTrue(c + w) <==> forall t :: t in c && t !in keys && t != Ready ==> c[t] == True
  {
    assert forall t :: t in c && t !in keys ==> t in c + w && (c + w)[t] == c[t];
  }

  /** After a completed calm pass with healthy surroundings, Autoscaling is Ready
      exactly when every condition that the pass does not write was already True.
      A False InputReady is such a condition, and nothing ever repairs it. */
  lemma ReadyAfterCalm(k: Reconciler, o: Oracle, s: Store)
    requires Calm(o) && Happy(o) && Settled(s) && Normal(k, o.publicFirst) == AutoscalingProgram(o.publicFirst)
    requires Recorded(s, AodhGoal(k, o, s.cr.value.spec, s.cr.value.status.databaseHostname))
    ensures var c := s.cr.value.status.conditions.value;
            var r := Reconcile(k, o, s);
            && r.cr.Some?
            && (IsTrue(r.cr.value.status.conditions, Ready) <==>
                forall t :: t in c && t !in AODH_WRITTEN && t != Ready ==> c[t] == True)
  {
    hide Reconcile;
    CalmPass(k, o, s);
    HappyTouched(o);
    ReadyOver(s.cr.value.status.conditions.value, AodhTouched(o), AODH_WRITTEN);
  }
}
