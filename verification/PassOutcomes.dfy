/** What Autoscaling and Ceilometer passes do for every combination of answers: when they
    complete, when they stop, what their True conditions and their workloads are worth. */
module PassOutcomes {
  import opened Conditions
  import opened Cluster
  import opened Stages
  import opened Programs
  import opened Discipline
  import opened Convergence
  import opened CeilometerConvergence
  import opened GateInputs
  import opened Checks

  type Hash = map<Var, string> -> string

  // ---------------------------------------------------------------- True conditions are earned

  /** What a True mark of a condition stands for. */
  predicate Earned(o: Oracle, c: Cond) {
    && (c.MemcachedReady? || c.HeatReady? ==> o.reply(Require(c)).err.Nil? && o.isReady(c))
    && (c.RabbitMqTransportURLReady? ==> o.reply(Transport).err.Nil? && o.transportSecret != "")
    && (c.DBReady? ==> Fine(o.reply(AwaitDatabase)))
    && (c.DBSyncReady? ==> Fine(o.reply(SyncDatabase)))
    && (c.DeploymentReady? ==> o.reply(OwnWorkload).err.Nil? && o.replicas > 0)
  }

  /** Only these are marked True without a call of their own. */
  predicate Plain(p: Program) {
    p.Then? ==>
      && (p.head.MarkDone? ==> p.head.cond.ServiceConfigReady? || p.head.cond.InputReady?)
      && (p.head.Require? ==> p.head.cond.MemcachedReady? || p.head.cond.HeatReady?)
      && Plain(p.tail)
  }

  predicate AllEarned(o: Oracle, marks: seq<Mark>) {
    forall c :: Mark(c, True) in marks ==> Earned(o, c)
  }

  lemma StageEarns(k: Reconciler, o: Oracle, st: Stage, spec: Spec, m: Memo)
    requires AllEarned(o, m.marks) && Plain(Then(st, End))
    ensures AllEarned(o, Judge(k, o, st, spec, m).memo.marks)
  {
    hide Judge;
    StageVerdict(k, o, st, spec, m);
    JudgeMarks(k, o, st, spec, m);
  }

  lemma {:induction false} RunEarns(k: Reconciler, o: Oracle, p: Program, l: Local)
    requires AllEarned(o, l.memo.marks) && Plain(p)
    ensures AllEarned(o, Run(k, o, p, l).local.memo.marks)
    decreases p
  {
    if p.Then? {
      hide Judge, AllEarned;
      StageEarns(k, o, p.head, l.spec, l.memo);
      var f := Step(k, o, p.head, l);
      if f.Next? { RunEarns(k, o, p.tail, f.local); }
    }
  }

  lemma PlainThen(st: Stage, rest: Program)
    requires Plain(rest) && (st.MarkDone? ==> st.cond.ServiceConfigReady? || st.cond.InputReady?)
    requires st.Require? ==> st.cond.MemcachedReady? || st.cond.HeatReady?
    ensures Plain(Then(st, rest))
  {
  }

  lemma AutoscalingPlain(b: bool)
    ensures Plain(AutoscalingProgram(b)) && Plain(DeleteAodh())
  {
    assert Plain(End);
    hide Plain;
    var x := if b then Public else Internal;
    var y := if b then Internal else Public;
    var p := End;
    PlainThen(Register(KeystoneEndpoint), p); p := Then(Register(KeystoneEndpoint), p);
    PlainThen(Publish, p); p := Then(Publish, p);
    PlainThen(Address(y), p); p := Then(Address(y), p);
    PlainThen(Expose(y), p); p := Then(Expose(y), p);
    PlainThen(Address(x), p); p := Then(Address(x), p);
    PlainThen(Expose(x), p); p := Then(Expose(x), p);
    PlainThen(OwnWorkload, p); p := Then(OwnWorkload, p);
    PlainThen(Deploy, p); p := Then(Deploy, p);
    PlainThen(DefineWorkload, p); p := Then(DefineWorkload, p);
    PlainThen(SyncDatabase, p); p := Then(SyncDatabase, p);
    PlainThen(AwaitDatabase, p); p := Then(AwaitDatabase, p);
    PlainThen(CreateDatabase, p); p := Then(CreateDatabase, p);
    PlainThen(Register(KeystoneService), p); p := Then(Register(KeystoneService), p);
    PlainThen(InitSecret, p); p := Then(InitSecret, p);
    PlainThen(Gate, p); p := Then(Gate, p);
    PreparePlain(p);
    DeletePlain();
  }

  lemma PreparePlain(rest: Program)
    requires Plain(rest)
    ensures Plain(PrepareAutoscaling(rest))
  {
    hide Plain;
    var p := rest;
    PlainThen(Render(Aodh), p); p := Then(Render(Aodh), p);
    PlainThen(Prometheus, p); p := Then(Prometheus, p);
    PlainThen(ReadSecret(FromTransport), p); p := Then(ReadSecret(FromTransport), p);
    PlainThen(Require(HeatReady), p); p := Then(Require(HeatReady), p);
    PlainThen(Require(MemcachedReady), p); p := Then(Require(MemcachedReady), p);
    PlainThen(ReadSecret(FromSpec), p); p := Then(ReadSecret(FromSpec), p);
    PlainThen(Transport, p); p := Then(Transport, p);
    PlainThen(MarkDone(ServiceConfigReady), p); p := Then(MarkDone(ServiceConfigReady), p);
    PlainThen(Rbac, p);
  }

  lemma DeletePlain()
    ensures Plain(DeleteAodh())
  {
    assert Plain(End);
    hide Plain;
    var p := End;
    PlainThen(DropFinalizer, p); p := Then(DropFinalizer, p);
    PlainThen(ReleaseFinalizer(KeystoneEndpoint), p); p := Then(ReleaseFinalizer(KeystoneEndpoint), p);
    PlainThen(ReleaseFinalizer(KeystoneService), p); p := Then(ReleaseFinalizer(KeystoneService), p);
    PlainThen(ReleaseFinalizer(Database), p);
  }

  /** Whatever happens in an Autoscaling pass, what it marks True it has seen to be true:
      memcached and heat were found and ready, the transport has a secret, the database
      and its schema are there, replicas are up. */
  lemma AutoscalingMarksEarned(namespace: string, objectHash: Hash, o: Oracle, s: Store, c: Cond)
    requires Pass(Autoscaling(namespace, objectHash), o, s).2.Some?
    ensures Mark(c, True) in Pass(Autoscaling(namespace, objectHash), o, s).2.value.last.memo.marks ==> Earned(o, c)
  {
    hide Acts, Run, AutoscalingProgram, DeleteAodh, Earned, Plain, Patched, PatchFails;
    var k := Autoscaling(namespace, objectHash);
    var s1 := Acts(s, o.env(Fetch));
    AutoscalingPlain(o.publicFirst);
    RunEarns(k, o, ProgramOf(k, o, s1.cr.value), Begin(s1, s1.cr.value));
  }

  // ---------------------------------------------------------------- blocked passes

  /** In front of the gate no hash is written, no workload is deployed and the finalizer
      stays as it is. */
  predicate Harmless(l: Local, r: Local) {
    && r.memo.status.hash == l.memo.status.hash && r.meta == l.meta
    && (r.store.workload.Some? ==> r.store.workload == l.store.workload)
  }

  lemma StepHarmless(k: Reconciler, o: Oracle, st: Stage, l: Local)
    requires BeforeGate(st) && !st.Gate?
    ensures Harmless(l, Step(k, o, st, l).local)
  {
    hide Judge, Acts;
    StageFields(k, o, st, l.spec, l.memo);
    ActsKeep(l.store, o.env(st));
  }

  lemma {:induction false} RunHarmless(k: Reconciler, o: Oracle, p: Program, l: Local)
    requires InFront(p)
    ensures Harmless(l, Run(k, o, p, l).local)
    decreases p
  {
    if p.Then? {
      hide Step;
      StepHarmless(k, o, p.head, l);
      var f := Step(k, o, p.head, l);
      if f.Next? { RunHarmless(k, o, p.tail, f.local); }
    }
  }

  lemma {:induction false} InFrontGateFree(p: Program)
    requires InFront(p)
    ensures GateFree(p)
    decreases p
  {
    if p.Then? { InFrontGateFree(p.tail); }
  }

  /** A stage in front of the gate whose answers do not let it through ends the pass,
      with its condition False and what it returns. */
  lemma RunBlocked(k: Reconciler, o: Oracle, p: Program, st: Stage, rest: Program, l: Local)
    requires InFront(p) && AllAnswered(o, p) && BeforeGate(st) && !st.Gate? && !Answered(o, st)
    ensures var f := Run(k, o, Concat(p, Then(st, rest)), l);
            && f == Stop(f.local, Result(Requeues(o, st), Reports(k, o, st)))
            && InForce(f.local.memo, FalseMarks(o, st)) && Harmless(l, f.local)
  {
    hide Judge, Answered, Requeues, Reports, AllAnswered, InForce, FalseMarks;
    InFrontGateFree(p);
    RunConcat(k, o, p, Then(st, rest), l);
    RunAnswered(k, o, p, l);
    RunHarmless(k, o, p, l);
    var f := Run(k, o, p, l);
    StageVerdict(k, o, st, l.spec, f.local.memo);
    RunKeepsSpec(k, o, p, l);
    JudgeMarks(k, o, st, l.spec, f.local.memo);
    StepHarmless(k, o, st, f.local);
  }

  lemma {:induction false} RunKeepsSpec(k: Reconciler, o: Oracle, p: Program, l: Local)
    ensures Run(k, o, p, l).local.spec == l.spec
    decreases p
  {
    if p.Then? {
      hide Judge;
      var f := Step(k, o, p.head, l);
      if f.Next? { RunKeepsSpec(k, o, p.tail, f.local); }
    }
  }

  /** The stages in front of the check of memcached or heat, and those behind it. */
  function BeforeRequire(c: Cond): Program {
    Then(Rbac, Then(MarkDone(ServiceConfigReady), Then(Transport, Then(ReadSecret(FromSpec),
      if c.HeatReady? then Then(Require(MemcachedReady), End) else End))))
  }

  function AfterRequire(c: Cond, rest: Program): Program {
    var p := Then(ReadSecret(FromTransport), Then(Prometheus, Then(Render(Aodh), rest)));
    if c.HeatReady? then p else Then(Require(HeatReady), p)
  }

  lemma SplitAtRequire(c: Cond, rest: Program)
    requires c.MemcachedReady? || c.HeatReady?
    ensures PrepareAutoscaling(rest) == Concat(BeforeRequire(c), Then(Require(c), AfterRequire(c, rest)))
    ensures InFront(BeforeRequire(c))
  {
    var q := Then(Require(c), AfterRequire(c, rest));
    var p := End;
    assert Concat(p, q) == q && InFront(p);
    hide Concat;
    if c.HeatReady? { p := Grow(Require(MemcachedReady), p, q); }
    p := Grow(ReadSecret(FromSpec), p, q);
    p := Grow(Transport, p, q);
    p := Grow(MarkDone(ServiceConfigReady), p, q);
    p := Grow(Rbac, p, q);
  }

  /** The service is found and ready. */
  predicate Available(o: Oracle, c: Cond) {
    o.reply(Require(c)).err.Nil? && o.isReady(c)
  }

  /** The answers that take an Autoscaling pass to its check of memcached or heat. */
  predicate ReachesRequire(o: Oracle, c: Cond) {
    && Fine(o.reply(Rbac)) && o.reply(Transport).err.Nil? && o.transportSecret != ""
    && o.reply(ReadSecret(FromSpec)).err.Nil? && (c.HeatReady? ==> Available(o, MemcachedReady))
  }

  lemma RequireReached(o: Oracle, c: Cond)
    requires ReachesRequire(o, c)
    ensures AllAnswered(o, BeforeRequire(c))
  {
    var p := if c.HeatReady? then Then(Require(MemcachedReady), End) else End;
    assert AllAnswered(o, p);
    hide AllAnswered;
    Unroll(o, ReadSecret(FromSpec), p); p := Then(ReadSecret(FromSpec), p);
    Unroll(o, Transport, p); p := Then(Transport, p);
    Unroll(o, MarkDone(ServiceConfigReady), p); p := Then(MarkDone(ServiceConfigReady), p);
    Unroll(o, Rbac, p);
  }

  lemma RequireBlocks(k: Reconciler, o: Oracle, b: bool, s: Store, cr: Resource, c: Cond)
    requires c.MemcachedReady? || c.HeatReady?
    requires ReachesRequire(o, c) && !Available(o, c)
    ensures var f := Run(k, o, AutoscalingProgram(b), Begin(s, cr));
            && f == Stop(f.local, Result(!o.reply(Require(c)).err.Other?, true))
            && InForce(f.local.memo, [Mark(c, False)]) && Harmless(Begin(s, cr), f.local)
  {
    hide Run, InForce, Harmless, AllAnswered, InitAodh, NormalAodh, BeforeRequire, AfterRequire, PrepareAutoscaling;
    hide ReachesRequire, Concat;
    var rest := Then(Gate, InitAodh(NormalAodh(b, End)));
    SplitAtRequire(c, rest);
    RequireReached(o, c);
    RunBlocked(k, o, BeforeRequire(c), Require(c), AfterRequire(c, rest), Begin(s, cr));
  }

  /** An Autoscaling pass that comes to its check of memcached or heat and does not find
      it ready ends there, whoever acts meanwhile: the condition is False and Ready is
      not True, an error is returned and, unless the read failed otherwise, a requeue;
      no hash is recorded and nothing is deployed. */
  lemma AutoscalingWaits(namespace: string, objectHash: Hash, o: Oracle, s: Store, c: Cond)
    requires c.MemcachedReady? || c.HeatReady?
    requires Pass(Autoscaling(namespace, objectHash), o, s).2.Some?
    requires var cr := Acts(s, o.env(Fetch)).cr.value;
             cr.meta.ours && !cr.meta.deleting && cr.status.conditions.Some?
    ensures ReachesRequire(o, c) && !Available(o, c) ==>
              var p := Pass(Autoscaling(namespace, objectHash), o, s);
              var last := p.2.value.last.memo.status;
              && !p.2.value.completed && p.1 == Result(!o.reply(Require(c)).err.Other?, true)
              && last.conditions.Some? && c in last.conditions.value && last.conditions.value[c] == False
              && !IsTrue(last.conditions, Ready)
              && last.hash == Acts(s, o.env(Fetch)).cr.value.status.hash
              && (p.0.workload.Some? ==> p.0.workload == s.workload)
  {
    if ReachesRequire(o, c) && !Available(o, c) {
      var k := Autoscaling(namespace, objectHash);
      var s1 := Acts(s, o.env(Fetch));
      hide Acts, Run, AutoscalingProgram, DeleteAodh, ReachesRequire, Available;
      RequireBlocks(k, o, o.publicFirst, s1, s1.cr.value, c);
      var f := Body(k, o, s1, s1.cr.value);
      ActsKeep(s, o.env(Fetch));
      ActsKeep(f.local.store, o.env(Patch));
    }
  }

  // ---------------------------------------------------------------- deployments

  /** Behind nothing but a complete set of inputs and an open gate is a workload ever
      written: if a pass leaves a workload that was not there, memcached and heat were
      ready, all secrets were read and the recorded hash was the one of the inputs. */
  lemma AutoscalingDeploysOnlyReady(namespace: string, objectHash: Hash, o: Oracle, s: Store)
    requires Pass(Autoscaling(namespace, objectHash), o, s).2.Some?
    ensures var k := Autoscaling(namespace, objectHash);
            var r := Pass(k, o, s).0;
            r.workload.Some? && r.workload != s.workload ==>
              AodhInputsFound(o) && AodhGateOpens(k, o, Acts(s, o.env(Fetch)).cr.value)
  {
    hide Acts, Run, AutoscalingProgram, DeleteAodh, AodhInputsFound, AodhGateOpens;
    var k := Autoscaling(namespace, objectHash);
    var s1 := Acts(s, o.env(Fetch));
    var cr := s1.cr.value;
    ActsKeep(s, o.env(Fetch));
    ActsKeep(Body(k, o, s1, cr).local.store, o.env(Patch));
    if cr.meta.deleting {
      DeleteDeploysNothing(k, o, Begin(s1, cr));
    } else if !(AodhInputsFound(o) && AodhGateOpens(k, o, cr)) {
      BeforeGateDeploysNothing(k, o, o.publicFirst, s1, cr);
    }
  }

  predicate NoDeploy(p: Program) {
    p.Then? ==> !p.head.Deploy? && NoDeploy(p.tail)
  }

  lemma {:induction false} RunDeploysNothing(k: Reconciler, o: Oracle, p: Program, l: Local)
    requires NoDeploy(p)
    ensures var r := Run(k, o, p, l).local.store; r.workload.Some? ==> r.workload == l.store.workload
    decreases p
  {
    if p.Then? {
      hide Judge, Acts;
      ActsKeep(l.store, o.env(p.head));
      var f := Step(k, o, p.head, l);
      if f.Next? { RunDeploysNothing(k, o, p.tail, f.local); }
    }
  }

  lemma DeleteDeploysNothing(k: Reconciler, o: Oracle, l: Local)
    ensures var r := Run(k, o, DeleteAodh(), l).local.store; r.workload.Some? ==> r.workload == l.store.workload
  {
    hide Run;
    var p := Then(ReleaseFinalizer(KeystoneEndpoint), Then(DropFinalizer, End));
    assert NoDeploy(p);
    RunDeploysNothing(k, o, DeleteAodh(), l);
  }

  lemma BeforeGateDeploysNothing(k: Reconciler, o: Oracle, b: bool, s: Store, cr: Resource)
    requires !(AodhInputsFound(o) && AodhGateOpens(k, o, cr))
    ensures var r := Run(k, o, AutoscalingProgram(b), Begin(s, cr)).local.store;
            r.workload.Some? ==> r.workload == s.workload
  {
    hide AodhInputsFound, AodhGateOpens, PrepareAutoscaling, InitAodh, NormalAodh, Judge, Acts;
    AutoscalingViaGate(k, o, b, s, cr);
    ReachesAodhGate(k, o, s, cr);
    PrepareAutoscalingShape(End);
    RunHarmless(k, o, PrepareAutoscaling(End), Begin(s, cr));
    if AodhInputsFound(o) {
      PastAodhGate(k, o, s, cr);
      ActsKeep(ToAodhGate(k, o, s, cr).local.store, o.env(Gate));
    }
  }

  /** The configuration is rendered for the Prometheus that the spec names, or else for the
      one of MetricStorage in the namespace. */
  lemma AutoscalingQueries(namespace: string, objectHash: Hash, o: Oracle, spec: Spec, hostname: string)
    ensures var vars := AodhVars(Autoscaling(namespace, objectHash), o, spec, hostname);
            && ConfigVar(Aodh) in vars
            && vars[ConfigVar(Aodh)] == o.config(Aodh, RenderInput(
                 o.transportSecret,
                 if spec.prometheusHost != "" then spec.prometheusHost
                 else "metric-storage-prometheus." + namespace + ".svc",
                 if spec.prometheusPort != 0 then spec.prometheusPort else 9090,
                 hostname))
  {
    hide AutoscalingProgram, DeleteAodh;
  }

  // ---------------------------------------------------------------- Ceilometer

  /** Everything that a Ceilometer pass asks for in front of the gate. */
  predicate CeilometerInputsFound(o: Oracle) {
    && Fine(o.reply(Rbac))
    && o.reply(Transport).err.Nil? && o.transportSecret != ""
    && o.reply(ReadSecret(FromSpec)).err.Nil? && o.reply(ReadSecret(FromTransport)).err.Nil?
    && o.reply(Render(CeilometerCentral)).err.Nil? && o.reply(Render(CeilometerCompute)).err.Nil?
  }

  predicate CeilometerServed(o: Oracle) {
    && o.reply(InitSecret).err.Nil?
    && Fine(o.reply(Register(KeystoneService)))
    && o.reply(DefineWorkload).err.Nil? && Fine(o.reply(Deploy)) && o.reply(OwnWorkload).err.Nil?
    && o.reply(ScrapeService).err.Nil?
  }

  predicate CeilometerGateOpens(k: Reconciler, o: Oracle, cr: Resource) {
    o.reply(Gate).err.Nil? && Lookup(cr.status.hash, InputHash) == CeilometerGoal(k, o, cr)
  }

  lemma CeilometerPrepareAsks(o: Oracle)
    ensures AllAnswered(o, PrepareCeilometer(End)) <==>
              && Answered(o, Rbac) && Answered(o, Transport)
              && Answered(o, ReadSecret(FromSpec)) && Answered(o, ReadSecret(FromTransport))
              && Answered(o, MarkDone(InputReady))
              && Answered(o, Render(CeilometerCentral)) && Answered(o, Render(CeilometerCompute))
    ensures GateFree(PrepareCeilometer(End))
  {
    assert AllAnswered(o, End) && GateFree(End);
    hide AllAnswered, GateFree, Answered;
    var p := End;
    Unroll(o, Render(CeilometerCompute), p); p := Then(Render(CeilometerCompute), p);
    Unroll(o, Render(CeilometerCentral), p); p := Then(Render(CeilometerCentral), p);
    Unroll(o, MarkDone(InputReady), p); p := Then(MarkDone(InputReady), p);
    Unroll(o, ReadSecret(FromTransport), p); p := Then(ReadSecret(FromTransport), p);
    Unroll(o, ReadSecret(FromSpec), p); p := Then(ReadSecret(FromSpec), p);
    Unroll(o, Transport, p); p := Then(Transport, p);
    Unroll(o, Rbac, p);
  }

  lemma CeilometerServeAsks(o: Oracle)
    ensures AllAnswered(o, ServeCeilometer(End)) <==>
              && Answered(o, MarkDone(ServiceConfigReady)) && Answered(o, InitSecret)
              && Answered(o, Register(KeystoneService)) && Answered(o, DefineWorkload)
              && Answered(o, Deploy) && Answered(o, OwnWorkload) && Answered(o, ScrapeService)
    ensures GateFree(ServeCeilometer(End))
  {
    assert AllAnswered(o, End) && GateFree(End);
    hide AllAnswered, GateFree, Answered;
    var p := End;
    Unroll(o, ScrapeService, p); p := Then(ScrapeService, p);
    Unroll(o, OwnWorkload, p); p := Then(OwnWorkload, p);
    Unroll(o, Deploy, p); p := Then(Deploy, p);
    Unroll(o, DefineWorkload, p); p := Then(DefineWorkload, p);
    Unroll(o, Register(KeystoneService), p); p := Then(Register(KeystoneService), p);
    Unroll(o, InitSecret, p); p := Then(InitSecret, p);
    Unroll(o, MarkDone(ServiceConfigReady), p);
  }

  lemma ReachesCeilometerGate(k: Reconciler, o: Oracle, s: Store, cr: Resource)
    ensures ToCeilometerGate(k, o, s, cr).Next? <==> CeilometerInputsFound(o)
  {
    hide Run, AllAnswered, GateFree, PrepareCeilometer;
    CeilometerPrepareAsks(o);
    RunAnswered(k, o, PrepareCeilometer(End), Begin(s, cr));
  }

  lemma CeilometerAnswered(o: Oracle)
    ensures AllAnswered(o, ServeCeilometer(End)) <==> CeilometerServed(o)
    ensures GateFree(ServeCeilometer(End))
  {
    hide AllAnswered, GateFree, ServeCeilometer;
    CeilometerServeAsks(o);
  }

  lemma CeilometerRunCompletes(k: Reconciler, o: Oracle, s: Store, cr: Resource)
    ensures Run(k, o, CeilometerProgram(), Begin(s, cr)).Next? <==>
              CeilometerInputsFound(o) && CeilometerGateOpens(k, o, cr) && CeilometerServed(o)
  {
    hide CeilometerProgram, ToCeilometerGate, CeilometerInputsFound, CeilometerServed, AllAnswered, GateFree;
    hide ServeCeilometer, Judge, CeilometerVars;
    CeilometerViaGate(k, o, s, cr);
    ReachesCeilometerGate(k, o, s, cr);
    if CeilometerInputsFound(o) {
      CeilometerGateVars(k, o, s, cr);
      var l := ToCeilometerGate(k, o, s, cr).local;
      StageVerdict(k, o, Gate, l.spec, l.memo);
      CeilometerAnswered(o);
      RunAnswered(k, o, ServeCeilometer(End), Step(k, o, Gate, l).local);
    }
  }

  lemma CeilometerDeleteCompletes(k: Reconciler, o: Oracle, l: Local)
    ensures Run(k, o, DeleteCeilometer(), l).Next? <==> !o.reply(ReleaseFinalizer(KeystoneService)).err.Other?
  {
    hide Run;
    var p := DeleteCeilometer();
    Unroll(o, ReleaseFinalizer(KeystoneService), p.tail);
    RunAnswered(k, o, p, l);
  }

  /** Exactly when a Ceilometer pass completes, whoever acts in its middle. */
  lemma CeilometerCompletesExactly(namespace: string, objectHash: Hash, o: Oracle, s: Store)
    requires Pass(Ceilometer(namespace, objectHash), o, s).2.Some?
    ensures var k := Ceilometer(namespace, objectHash);
            var cr := Acts(s, o.env(Fetch)).cr.value;
            Pass(k, o, s).2.value.completed <==>
              && cr.status.conditions.Some?
              && if cr.meta.deleting then !o.reply(ReleaseFinalizer(KeystoneService)).err.Other?
                 else cr.meta.ours && CeilometerInputsFound(o) && CeilometerGateOpens(k, o, cr) && CeilometerServed(o)
  {
    hide Acts, Run, CeilometerProgram, DeleteCeilometer, CeilometerInputsFound, CeilometerGateOpens, CeilometerServed;
    hide Patched, PatchFails;
    var k := Ceilometer(namespace, objectHash);
    var s1 := Acts(s, o.env(Fetch));
    CeilometerRunCompletes(k, o, s1, s1.cr.value);
    CeilometerDeleteCompletes(k, o, Begin(s1, s1.cr.value));
  }

  // ---------------------------------------------------------------- lost errors

  /** The calls behind the gate that can fail and ask for a requeue at once. */
  predicate LateCall(st: Stage) {
    st.Register? || st.AwaitDatabase? || st.Deploy? || st.Expose?
  }

  /** Behind the gate Autoscaling returns the error of a call only if the call asks for no
      requeue, whereas Ceilometer always does. */
  lemma LateErrors(namespace: string, objectHash: Hash, o: Oracle, st: Stage)
    requires LateCall(st)
    ensures Reports(Autoscaling(namespace, objectHash), o, st) <==> !o.reply(st).err.Nil? && !o.reply(st).requeue
    ensures Reports(Ceilometer(namespace, objectHash), o, st) <==> !o.reply(st).err.Nil?
  {
    hide AutoscalingProgram, DeleteAodh, CeilometerProgram, DeleteCeilometer;
  }

  // ---------------------------------------------------------------- finalizers in memory

  /** A program whose last stage, and no other, drops the finalizer. */
  predicate DropsLast(p: Program) {
    p.Then? && if p.tail.End? then p.head.DropFinalizer? else !p.head.DropFinalizer? && DropsLast(p.tail)
  }

  lemma {:induction false} RunDrops(k: Reconciler, o: Oracle, p: Program, l: Local)
    requires DropsLast(p)
    ensures var f := Run(k, o, p, l);
            f.local.meta.ours == (f.Stop? && l.meta.ours) && f.local.meta.deleting == l.meta.deleting
    decreases p
  {
    hide Judge;
    StageVerdict(k, o, p.head, l.spec, l.memo);
    var f := Step(k, o, p.head, l);
    if f.Next? && !p.tail.End? { RunDrops(k, o, p.tail, f.local); }
  }

  /** A deletion gives the finalizer up exactly when no call to let go of one of the
      three dependents failed. */
  lemma AutoscalingLetsGoExactly(namespace: string, objectHash: Hash, o: Oracle, s: Store)
    requires Pass(Autoscaling(namespace, objectHash), o, s).2.Some?
    requires var cr := Acts(s, o.env(Fetch)).cr.value; cr.meta.deleting && cr.status.conditions.Some?
    ensures Pass(Autoscaling(namespace, objectHash), o, s).2.value.last.meta.ours <==>
              Acts(s, o.env(Fetch)).cr.value.meta.ours && !AllReleased(o)
  {
    var p := Then(ReleaseFinalizer(KeystoneEndpoint), Then(DropFinalizer, End));
    assert DropsLast(p);
    assert DropsLast(DeleteAodh());
    hide Acts, Run, AutoscalingProgram, DeleteAodh, AllReleased, Patched, PatchFails, DropsLast;
    var k := Autoscaling(namespace, objectHash);
    var s1 := Acts(s, o.env(Fetch));
    AodhDeleteCompletes(k, o, Begin(s1, s1.cr.value));
    RunDrops(k, o, DeleteAodh(), Begin(s1, s1.cr.value));
  }
}
