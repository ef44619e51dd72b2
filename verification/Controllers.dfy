/** The reconcilers in the form in which the operator runs them: an in-memory
    instance that is updated call by call, early returns, and a deferred write.
    Every method is proved to follow the stage programs of module Programs. */
module Controllers {
  import opened Conditions
  import opened Cluster
  import opened Stages
  import opened Programs

  /** A reconciler whose results behind the gate are those of the inner methods,
      before reconcileNormal decides what to do with them. */
  function Raw(k: Reconciler): Reconciler {
    k.(swallows := false)
  }

  /** What reconcileNormal makes of an inner result: a non-empty result hides the
      error in Autoscaling and does not in Ceilometer. */
  function Swallow(k: Reconciler, r: Result): Result {
    if k.swallows && r.requeue then Result(true, false) else r
  }

  function SwallowFlow(k: Reconciler, f: Flow): Flow {
    match f
    case Next(l) => Next(l)
    case Stop(l, r) => Stop(l, Swallow(k, r))
  }

  /** Only stages behind the gate. */
  predicate Behind(p: Program) {
    p.Then? ==> !BeforeGate(p.head) && Behind(p.tail)
  }

  lemma StepSwallows(k: Reconciler, o: Oracle, st: Stage, l: Local)
    requires !BeforeGate(st)
    ensures Step(k, o, st, l) == SwallowFlow(k, Step(Raw(k), o, st, l))
  {
    hide SetMark, SetMirror, Touch, Acts;
  }

  /** Behind the gate the two kinds of results differ only by Swallow. */
  lemma {:induction false} RunSwallows(k: Reconciler, o: Oracle, p: Program, l: Local)
    requires Behind(p)
    ensures Run(k, o, p, l) == SwallowFlow(k, Run(Raw(k), o, p, l))
    decreases p
  {
    if p.Then? {
      hide Step, Swallow;
      StepSwallows(k, o, p.head, l);
      var f := Step(k, o, p.head, l);
      if f.Next? { RunSwallows(k, o, p.tail, f.local); }
    }
  }

  lemma RunGoes(k: Reconciler, o: Oracle, st: Stage, rest: Program, l: Local)
    ensures var f := Step(k, o, st, l);
            Run(k, o, Then(st, rest), l) == if f.Next? then Run(k, o, rest, f.local) else f
  {
  }

  /** The order in which a pass ranges over the endpoint map. */
  function EndpointOrder(publicFirst: bool): seq<Endpoint> {
    if publicFirst then [Public, Internal] else [Internal, Public]
  }

  function ExposeAll(es: seq<Endpoint>, rest: Program): Program {
    if es == [] then rest else Then(Expose(es[0]), Then(Address(es[0]), ExposeAll(es[1..], rest)))
  }

  class Instance {
    const k: Reconciler
    const o: Oracle
    const uid: nat
    const spec: Spec
    var store: Store
    var meta: Meta
    var status: Status
    var configMapVars: map<Var, string>
    var inputHash: string
    var apiEndpoints: map<Endpoint, string>
    ghost var marks: seq<Mark>

    ghost function State(): Local
      reads this
    {
      Local(store, uid, meta, spec, Memo(status, configMapVars, inputHash, apiEndpoints, marks))
    }

    /** The state and the result after one stage. */
    ghost predicate Follows(f: Flow, result: Result)
      reads this
    {
      f == if result == DONE then Next(State()) else Stop(State(), result)
    }

    /** The state and the result after a stretch of the program, with `rest` to go. */
    ghost predicate Leads(k: Reconciler, f: Flow, rest: Program, result: Result)
      reads this
    {
      f == if result == DONE then Run(k, o, rest, State()) else Stop(State(), result)
    }

    constructor (k: Reconciler, o: Oracle, s: Store, cr: Resource)
      ensures this.k == k && this.o == o && State() == Begin(s, cr)
    {
      this.k, this.o, uid, spec := k, o, cr.uid, cr.spec;
      store, meta, status := s, cr.meta, cr.status;
      configMapVars, inputHash, apiEndpoints, marks := map[], "", map[], [];
    }

    // -------------------------------------------------------------- primitives

    /** Everybody else acts, then the call of the stage is made and answered. */
    method Call(st: Stage) returns (r: Reply)
      modifies this`store
      ensures r == o.reply(st) && store == Touch(o, st, inputHash, Acts(old(store), o.env(st)))
    {
      store := Touch(o, st, inputHash, Acts(store, o.env(st)));
      r := o.reply(st);
    }

    method Set(c: Cond, s: CondStatus)
      modifies this`status, this`marks
      ensures State() == old(State()).(memo := SetMark(old(State()).memo, c, s))
    {
      var conds := if status.conditions.Some? then status.conditions.value else map[];
      status := status.(conditions := Some(conds[c := s]));
      marks := marks + [Mark(c, s)];
    }

    // -------------------------------------------------------------- before the gate

    method ReconcileRbac() returns (result: Result)
      modifies this`store, this`status, this`marks
      ensures Follows(Step(k, o, Rbac, old(State())), result)
    {
      var r := Call(Rbac);
      var conds := if status.conditions.Some? then status.conditions.value else map[];
      status := status.(conditions := Some(conds + RbacPart(o.rbac)));
      marks := marks + [RbacSet(RbacPart(o.rbac))];
      result := Result(r.requeue, !r.err.Nil?);
    }

    method MarkTrue(c: Cond) returns (result: Result)
      modifies this`store, this`status, this`marks
      ensures Follows(Step(k, o, MarkDone(c), old(State())), result) && result == DONE
    {
      var _ := Call(MarkDone(c));
      Set(c, True);
      result := DONE;
    }

    method EnsureTransportURL() returns (result: Result)
      modifies this`store, this`status, this`marks
      ensures Follows(Step(k, o, Transport, old(State())), result)
      ensures result == DONE <==> o.reply(Transport).err.Nil? && o.transportSecret != ""
    {
      var r := Call(Transport);
      if !r.err.Nil? {
        Set(RabbitMqTransportURLReady, False);
        return Result(false, true);
      }
      status := status.(transportURLSecret := o.transportSecret);
      if status.transportURLSecret == "" {
        Set(RabbitMqTransportURLReady, False);
        return Result(true, false);
      }
      Set(RabbitMqTransportURLReady, True);
      result := DONE;
    }

    method GetSecret(source: SecretSource) returns (result: Result)
      modifies this`store, this`status, this`marks, this`configMapVars
      ensures Follows(Step(k, o, ReadSecret(source), old(State())), result)
      ensures var r := o.reply(ReadSecret(source));
              result == if r.err.Nil? then DONE else Result(r.err.NotFound?, true)
    {
      var name := match source case FromSpec => spec.secret case FromTransport => status.transportURLSecret;
      var r := Call(ReadSecret(source));
      if !r.err.Nil? {
        Set(InputReady, False);
        return Result(r.err.NotFound?, true);
      }
      configMapVars := configMapVars[SecretVar(name) := o.secretHash(name)];
      result := DONE;
    }

    method RequireReady(c: Cond) returns (result: Result)
      modifies this`store, this`status, this`marks
      ensures Follows(Step(k, o, Require(c), old(State())), result)
      ensures var r := o.reply(Require(c));
              && (result == DONE <==> r.err.Nil? && o.isReady(c))
              && (result != DONE ==> result == Result(!r.err.Other?, true))
              && status.conditions.Some? && c in status.conditions.value
              && status.conditions.value[c] == if r.err.Nil? && o.isReady(c) then True else False
    {
      var r := Call(Require(c));
      if !r.err.Nil? {
        Set(c, False);
        return Result(r.err.NotFound?, true);
      }
      if !o.isReady(c) {
        Set(c, False);
        return Result(true, true);
      }
      Set(c, True);
      result := DONE;
    }

    method ResolvePrometheus() returns (result: Result)
      modifies this`store, this`status
      ensures Follows(Step(k, o, Prometheus, old(State())), result) && result == DONE
    {
      var _ := Call(Prometheus);
      if spec.prometheusHost == "" {
        status := status.(prometheusHost := k.prometheusHost);
      } else {
        status := status.(prometheusHost := spec.prometheusHost);
      }
      if spec.prometheusPort == 0 {
        status := status.(prometheusPort := PROMETHEUS_PORT);
      } else {
        status := status.(prometheusPort := spec.prometheusPort);
      }
      result := DONE;
    }

    method GenerateServiceConfig(service: Service) returns (result: Result)
      modifies this`store, this`status, this`marks, this`configMapVars
      ensures Follows(Step(k, o, Render(service), old(State())), result)
    {
      var r := Call(Render(service));
      if !r.err.Nil? {
        Set(ServiceConfigReady, False);
        return Result(false, true);
      }
      configMapVars := configMapVars[ScriptsVar(service) := o.scripts(service)];
      configMapVars := configMapVars[ConfigVar(service) := o.config(service, RenderInputOf(status))];
      result := DONE;
    }

    /** createHashOfInputHashes and what reconcileNormal does with its answer. */
    method PassGate() returns (result: Result, changed: bool)
      modifies this`store, this`status, this`marks, this`inputHash
      ensures Step(k, o, Gate, old(State())) ==
              if changed || result != DONE then Stop(State(), result) else Next(State())
    {
      var r := Call(Gate);
      changed := false;
      if !r.err.Nil? {
        Set(ServiceConfigReady, False);
        return Result(false, true), false;
      }
      result := DONE;
      var hash := k.objectHash(configMapVars);
      changed := Lookup(status.hash, InputHash) != hash;
      status := status.(hash := status.hash[InputHash := hash]);
      if !changed { inputHash := hash; }
    }

    // -------------------------------------------------------------- reconcileInit

    method CheckSecret() returns (result: Result)
      modifies this`store
      ensures Follows(Step(Raw(k), o, InitSecret, old(State())), result)
    {
      var r := Call(InitSecret);
      if !r.err.Nil? {
        return Result(r.err.NotFound?, true);
      }
      result := DONE;
    }

    /** CreateOrPatch of a keystone object, whose condition is mirrored. */
    method RegisterInKeystone(d: Dependent) returns (result: Result)
      modifies this`store, this`status, this`marks
      ensures Follows(Step(Raw(k), o, Register(d), old(State())), result)
    {
      var r := Call(Register(d));
      if !r.err.Nil? {
        return Result(r.requeue, true);
      }
      var c := o.mirror(d);
      if c.Some? {
        var conds := if status.conditions.Some? then status.conditions.value else map[];
        status := status.(conditions := Some(conds[RegisterCond(d) := c.value]));
        marks := marks + [Mirrored(RegisterCond(d), c.value)];
      }
      result := Result(r.requeue, false);
    }

    method CreateDB() returns (result: Result)
      modifies this`store, this`status, this`marks
      ensures Follows(Step(Raw(k), o, CreateDatabase, old(State())), result)
    {
      var r := Call(CreateDatabase);
      if !r.err.Nil? {
        Set(DBReady, False);
        return Result(false, true);
      }
      if r.requeue {
        Set(DBReady, False);
        return Result(true, false);
      }
      result := DONE;
    }

    method WaitForDB() returns (result: Result)
      modifies this`store, this`status, this`marks
      ensures Follows(Step(Raw(k), o, AwaitDatabase, old(State())), result)
    {
      var r := Call(AwaitDatabase);
      if !r.err.Nil? {
        Set(DBReady, False);
        return Result(r.requeue, true);
      }
      if r.requeue {
        Set(DBReady, False);
        return Result(true, false);
      }
      status := status.(databaseHostname := o.hostname);
      Set(DBReady, True);
      result := DONE;
    }

    method SyncDB() returns (result: Result)
      modifies this`store, this`status, this`marks
      ensures Follows(Step(Raw(k), o, SyncDatabase, old(State())), result)
    {
      var r := Call(SyncDatabase);
      if r.requeue {
        Set(DBSyncReady, False);
        return Result(true, false);
      }
      if !r.err.Nil? {
        Set(DBSyncReady, False);
        return Result(false, true);
      }
      status := status.(hash := status.hash[DbSyncHash := o.jobHash]);
      Set(DBSyncReady, True);
      result := DONE;
    }

    // -------------------------------------------------------------- deployment

    method DefineStatefulSet() returns (result: Result)
      modifies this`store
      ensures Follows(Step(Raw(k), o, DefineWorkload, old(State())), result)
    {
      var r := Call(DefineWorkload);
      result := Result(false, !r.err.Nil?);
    }

    method CreateOrPatchStatefulSet() returns (result: Result)
      modifies this`store, this`status, this`marks
      ensures Follows(Step(Raw(k), o, Deploy, old(State())), result)
    {
      var r := Call(Deploy);
      if !r.err.Nil? {
        Set(DeploymentReady, False);
        return Result(r.requeue, true);
      } else if r.requeue {
        Set(DeploymentReady, False);
        return Result(true, false);
      }
      result := DONE;
    }

    method CountReplicas() returns (result: Result)
      modifies this`store, this`status, this`marks
      ensures Follows(Step(Raw(k), o, OwnWorkload, old(State())), result)
    {
      var r := Call(OwnWorkload);
      if !r.err.Nil? {
        return Result(false, true);
      }
      status := status.(readyCount := o.replicas);
      if status.readyCount > 0 {
        Set(DeploymentReady, True);
      }
      result := DONE;
    }

    method ExposeService(e: Endpoint) returns (result: Result)
      modifies this`store, this`status, this`marks
      ensures Follows(Step(Raw(k), o, Expose(e), old(State())), result)
    {
      var r := Call(Expose(e));
      if !r.err.Nil? {
        Set(ExposeServiceReady, False);
        return Result(r.requeue, true);
      } else if r.requeue {
        Set(ExposeServiceReady, False);
        return Result(true, false);
      }
      result := DONE;
    }

    method GetAPIEndpoint(e: Endpoint) returns (result: Result)
      modifies this`store, this`apiEndpoints
      ensures Follows(Step(Raw(k), o, Address(e), old(State())), result)
    {
      var r := Call(Address(e));
      if !r.err.Nil? {
        return Result(false, true);
      }
      apiEndpoints := apiEndpoints[e := o.address(e)];
      result := DONE;
    }

    /** The loop over the endpoints, in the order that the map iteration takes. */
    method ExposeServices(ghost rest: Program) returns (result: Result)
      modifies this`store, this`status, this`marks, this`apiEndpoints
      ensures Leads(Raw(k), Run(Raw(k), o, ExposeAll(EndpointOrder(o.publicFirst), rest), old(State())), rest, result)
    {
      hide Run, Step, Raw;
      var order := EndpointOrder(o.publicFirst);
      ghost var flow := Run(Raw(k), o, ExposeAll(order, rest), State());
      var i := 0;
      while i < |order|
        invariant 0 <= i <= |order|
        invariant flow == Run(Raw(k), o, ExposeAll(order[i..], rest), State())
      {
        ghost var todo := ExposeAll(order[i + 1..], rest);
        assert order[i..][1..] == order[i + 1..];
        RunGoes(Raw(k), o, Expose(order[i]), Then(Address(order[i]), todo), State());
        result := ExposeService(order[i]);
        if result != DONE { return; }
        RunGoes(Raw(k), o, Address(order[i]), todo, State());
        result := GetAPIEndpoint(order[i]);
        if result != DONE { return; }
        i := i + 1;
      }
      result := DONE;
    }

    method PublishEndpoints() returns (result: Result)
      modifies this`store, this`status, this`marks
      ensures Follows(Step(Raw(k), o, Publish, old(State())), result) && result == DONE
    {
      var _ := Call(Publish);
      status := status.(endpoints := apiEndpoints);
      Set(ExposeServiceReady, True);
      result := DONE;
    }

    method CreateScrapeService() returns (result: Result)
      modifies this`store
      ensures Follows(Step(Raw(k), o, ScrapeService, old(State())), result)
    {
      var r := Call(ScrapeService);
      result := Result(false, !r.err.Nil?);
    }

    // -------------------------------------------------------------- deletion

    method RemoveFinalizerFrom(d: Dependent) returns (result: Result)
      modifies this`store
      ensures Follows(Step(k, o, ReleaseFinalizer(d), old(State())), result)
    {
      var r := Call(ReleaseFinalizer(d));
      result := Result(false, r.err.Other?);
    }

    method RemoveFinalizer() returns (result: Result)
      modifies this`store, this`meta
      ensures Follows(Step(k, o, DropFinalizer, old(State())), result) && result == DONE
    {
      var _ := Call(DropFinalizer);
      meta := meta.(ours := false);
      result := DONE;
    }

    // -------------------------------------------------------------- Autoscaling

    method ReconcileInitAodh(ghost rest: Program) returns (result: Result)
      modifies this`store, this`status, this`marks
      ensures Leads(Raw(k), Run(Raw(k), o, InitAodh(rest), old(State())), rest, result)
    {
      hide Run, Step, Raw;
      ghost var p3 := Then(AwaitDatabase, Then(SyncDatabase, rest));
      ghost var p1 := Then(Register(KeystoneService), Then(CreateDatabase, p3));
      RunGoes(Raw(k), o, InitSecret, p1, State());
      result := CheckSecret();
      if result != DONE { return; }
      RunGoes(Raw(k), o, Register(KeystoneService), p1.tail, State());
      result := RegisterInKeystone(KeystoneService);
      if result != DONE { return; }
      RunGoes(Raw(k), o, CreateDatabase, p3, State());
      result := CreateDB();
      if result != DONE { return; }
      RunGoes(Raw(k), o, AwaitDatabase, p3.tail, State());
      result := WaitForDB();
      if result != DONE { return; }
      RunGoes(Raw(k), o, SyncDatabase, rest, State());
      result := SyncDB();
    }

    method DeployWorkload(ghost rest: Program) returns (result: Result)
      modifies this`store, this`status, this`marks
      ensures Leads(Raw(k), Run(Raw(k), o, Then(DefineWorkload, Then(Deploy, Then(OwnWorkload, rest))), old(State())),
                    rest, result)
    {
      hide Run, Step, Raw;
      ghost var p1 := Then(Deploy, Then(OwnWorkload, rest));
      RunGoes(Raw(k), o, DefineWorkload, p1, State());
      result := DefineStatefulSet();
      if result != DONE { return; }
      RunGoes(Raw(k), o, Deploy, p1.tail, State());
      result := CreateOrPatchStatefulSet();
      if result != DONE { return; }
      RunGoes(Raw(k), o, OwnWorkload, rest, State());
      result := CountReplicas();
    }

    method ReconcileNormalAodh(ghost rest: Program) returns (result: Result)
      modifies this`store, this`status, this`marks, this`apiEndpoints
      ensures Leads(Raw(k), Run(Raw(k), o, NormalAodh(o.publicFirst, rest), old(State())), rest, result)
    {
      NormalAodhShape(o.publicFirst, rest);
      hide Run, Step, Raw, NormalAodh, ExposeAll;
      ghost var p2 := Then(Publish, Then(Register(KeystoneEndpoint), rest));
      ghost var p1 := ExposeAll(EndpointOrder(o.publicFirst), p2);
      result := DeployWorkload(p1);
      if result != DONE { return; }
      result := ExposeServices(p2);
      if result != DONE { return; }
      RunGoes(Raw(k), o, Publish, p2.tail, State());
      result := PublishEndpoints();
      RunGoes(Raw(k), o, Register(KeystoneEndpoint), rest, State());
      result := RegisterInKeystone(KeystoneEndpoint);
    }

    /** reconcileNormal up to the checks of memcached and heat. */
    method RequireServices(ghost rest: Program) returns (result: Result)
      modifies this`store, this`status, this`marks, this`configMapVars
      ensures Leads(k, Run(k, o, Then(Transport, Then(ReadSecret(FromSpec), Then(Require(MemcachedReady),
                                 Then(Require(HeatReady), rest)))), old(State())), rest, result)
    {
      hide Run, Step;
      ghost var p2 := Then(Require(MemcachedReady), Then(Require(HeatReady), rest));
      RunGoes(k, o, Transport, Then(ReadSecret(FromSpec), p2), State());
      result := EnsureTransportURL();
      if result != DONE { return; }
      RunGoes(k, o, ReadSecret(FromSpec), p2, State());
      result := GetSecret(FromSpec);
      if result != DONE { return; }
      RunGoes(k, o, Require(MemcachedReady), p2.tail, State());
      result := RequireReady(MemcachedReady);
      if result != DONE { return; }
      RunGoes(k, o, Require(HeatReady), rest, State());
      result := RequireReady(HeatReady);
    }

    method PrepareInput(ghost rest: Program) returns (result: Result)
      modifies this`store, this`status, this`marks, this`configMapVars
      ensures Leads(k, Run(k, o, PrepareAutoscaling(rest), old(State())), rest, result)
    {
      hide Run, Step;
      ghost var p3 := Then(ReadSecret(FromTransport), Then(Prometheus, Then(Render(Aodh), rest)));
      ghost var p2 := Then(Transport, Then(ReadSecret(FromSpec),
                      Then(Require(MemcachedReady), Then(Require(HeatReady), p3))));
      RunGoes(k, o, Rbac, Then(MarkDone(ServiceConfigReady), p2), State());
      result := ReconcileRbac();
      if result != DONE { return; }
      RunGoes(k, o, MarkDone(ServiceConfigReady), p2, State());
      result := MarkTrue(ServiceConfigReady);
      result := RequireServices(p3);
      if result != DONE { return; }
      RunGoes(k, o, ReadSecret(FromTransport), p3.tail, State());
      result := GetSecret(FromTransport);
      if result != DONE { return; }
      RunGoes(k, o, Prometheus, p3.tail.tail, State());
      result := ResolvePrometheus();
      RunGoes(k, o, Render(Aodh), rest, State());
      result := GenerateServiceConfig(Aodh);
    }

    /** What follows the gate: inner results go through Swallow. */
    method ServeAodh() returns (result: Result)
      modifies this`store, this`status, this`marks, this`apiEndpoints
      ensures Ends(Run(k, o, InitAodh(NormalAodh(o.publicFirst, End)), old(State())), result)
    {
      ghost var p := NormalAodh(o.publicFirst, End);
      AodhBehind(o.publicFirst);
      RunSwallows(k, o, InitAodh(p), State());
      hide InitAodh, NormalAodh;
      result := ReconcileInitAodh(p);
      if result != DONE { return Swallow(k, result); }
      result := ReconcileNormalAodh(End);
      result := Swallow(k, result);
    }

    /** The state and the result at the end of a program. */
    ghost predicate Ends(f: Flow, result: Result)
      reads this
    {
      f.local == State() && result == if f.Next? then DONE else f.result
    }

    method AutoscalingNormal() returns (result: Result)
      modifies this`store, this`status, this`marks, this`configMapVars, this`inputHash, this`apiEndpoints
      ensures Ends(Run(k, o, AutoscalingProgram(o.publicFirst), old(State())), result)
    {
      hide Run, Step, PrepareAutoscaling, InitAodh, NormalAodh;
      ghost var p := InitAodh(NormalAodh(o.publicFirst, End));
      result := PrepareInput(Then(Gate, p));
      if result != DONE { return; }
      RunGoes(k, o, Gate, p, State());
      var changed;
      result, changed := PassGate();
      if changed || result != DONE { return; }
      result := ServeAodh();
    }

    method AutoscalingDelete() returns (result: Result)
      modifies this`store, this`meta
      ensures Ends(Run(k, o, DeleteAodh(), old(State())), result)
    {
      hide Run, Step;
      ghost var p3 := Then(DropFinalizer, End);
      ghost var p2 := Then(ReleaseFinalizer(KeystoneEndpoint), p3);
      ghost var p1 := Then(ReleaseFinalizer(KeystoneService), p2);
      RunGoes(k, o, ReleaseFinalizer(Database), p1, State());
      result := RemoveFinalizerFrom(Database);
      if result != DONE { return; }
      RunGoes(k, o, ReleaseFinalizer(KeystoneService), p2, State());
      result := RemoveFinalizerFrom(KeystoneService);
      if result != DONE { return; }
      RunGoes(k, o, ReleaseFinalizer(KeystoneEndpoint), p3, State());
      result := RemoveFinalizerFrom(KeystoneEndpoint);
      if result != DONE { return; }
      RunLast(k, o, DropFinalizer, State());
      result := RemoveFinalizer();
    }

    // -------------------------------------------------------------- Ceilometer

    method PrepareCeilometerInput(ghost rest: Program) returns (result: Result)
      modifies this`store, this`status, this`marks, this`configMapVars
      ensures Leads(k, Run(k, o, PrepareCeilometer(rest), old(State())), rest, result)
    {
      hide Run, Step;
      ghost var p4 := Then(MarkDone(InputReady),
                      Then(Render(CeilometerCentral), Then(Render(CeilometerCompute), rest)));
      ghost var p2 := Then(ReadSecret(FromSpec), Then(ReadSecret(FromTransport), p4));
      RunGoes(k, o, Rbac, Then(Transport, p2), State());
      result := ReconcileRbac();
      if result != DONE { return; }
      RunGoes(k, o, Transport, p2, State());
      result := EnsureTransportURL();
      if result != DONE { return; }
      RunGoes(k, o, ReadSecret(FromSpec), p2.tail, State());
      result := GetSecret(FromSpec);
      if result != DONE { return; }
      RunGoes(k, o, ReadSecret(FromTransport), p4, State());
      result := GetSecret(FromTransport);
      if result != DONE { return; }
      result := RenderCeilometer(rest);
    }

    method RenderCeilometer(ghost rest: Program) returns (result: Result)
      modifies this`store, this`status, this`marks, this`configMapVars
      ensures Leads(k, Run(k, o, Then(MarkDone(InputReady), Then(Render(CeilometerCentral),
                                 Then(Render(CeilometerCompute), rest))), old(State())), rest, result)
    {
      hide Run, Step;
      ghost var p1 := Then(Render(CeilometerCentral), Then(Render(CeilometerCompute), rest));
      RunGoes(k, o, MarkDone(InputReady), p1, State());
      result := MarkTrue(InputReady);
      RunGoes(k, o, Render(CeilometerCentral), p1.tail, State());
      result := GenerateServiceConfig(CeilometerCentral);
      if result != DONE { return; }
      RunGoes(k, o, Render(CeilometerCompute), rest, State());
      result := GenerateServiceConfig(CeilometerCompute);
    }

    method ServeCeilometerCentral() returns (result: Result)
      requires Raw(k) == k
      modifies this`store, this`status, this`marks
      ensures Ends(Run(k, o, ServeCeilometer(End), old(State())), result)
    {
      hide Run, Step, Raw;
      ghost var p5 := Then(ScrapeService, End);
      ghost var p3 := Then(DefineWorkload, Then(Deploy, Then(OwnWorkload, p5)));
      ghost var p1 := Then(InitSecret, Then(Register(KeystoneService), p3));
      RunGoes(k, o, MarkDone(ServiceConfigReady), p1, State());
      result := MarkTrue(ServiceConfigReady);
      RunGoes(k, o, InitSecret, p1.tail, State());
      result := CheckSecret();
      if result != DONE { return; }
      RunGoes(k, o, Register(KeystoneService), p3, State());
      result := RegisterInKeystone(KeystoneService);
      if result != DONE { return; }
      result := DeployWorkload(p5);
      if result != DONE { return; }
      RunLast(k, o, ScrapeService, State());
      result := CreateScrapeService();
    }

    method CeilometerNormal() returns (result: Result)
      requires Raw(k) == k
      modifies this`store, this`status, this`marks, this`configMapVars, this`inputHash
      ensures Ends(Run(k, o, CeilometerProgram(), old(State())), result)
    {
      hide Run, Step, PrepareCeilometer, ServeCeilometer, Raw;
      ghost var p := ServeCeilometer(End);
      result := PrepareCeilometerInput(Then(Gate, p));
      if result != DONE { return; }
      RunGoes(k, o, Gate, p, State());
      var changed;
      result, changed := PassGate();
      if changed || result != DONE { return; }
      result := ServeCeilometerCentral();
    }

    method CeilometerDelete() returns (result: Result)
      modifies this`store, this`meta
      ensures Ends(Run(k, o, DeleteCeilometer(), old(State())), result)
    {
      hide Run, Step;
      RunGoes(k, o, ReleaseFinalizer(KeystoneService), Then(DropFinalizer, End), State());
      result := RemoveFinalizerFrom(KeystoneService);
      if result != DONE { return; }
      RunLast(k, o, DropFinalizer, State());
      result := RemoveFinalizer();
    }

    // -------------------------------------------------------------- Reconcile

    /** The deferred function of Reconcile: Ready is recomputed, the finalizer and the
        status are written, each if it changed and as far as it is accepted, and an
        error may replace the one to return. */
    method PatchInstance(before: Resource, result: Result) returns (s: Store, r: Result)
      modifies this`store, this`status
      ensures var out := Finish(k, o, before, old(State()), result, true);
              s == out.store && r == out.result
    {
      UpdateReady();
      store := Acts(store, o.env(Patch));
      var failed := false;
      if meta.ours != before.meta.ours {
        if o.patchMeta && store.cr.Some? {
          store := PutMeta(store, store.cr.value.meta.(ours := meta.ours));
        } else {
          failed := true;
        }
      }
      if status != before.status {
        if o.patchStatus && store.cr.Some? {
          store := store.(cr := Some(store.cr.value.(status := status)));
        } else {
          failed := true;
        }
      }
      s, r := store, result;
      if failed && k.reports { r := r.(failed := true); }
    }

    method UpdateReady()
      modifies this`status
      ensures status == Refreshed(o, old(status))
    {
      if status.conditions.Some? {
        var conds := status.conditions.value;
        if AllSubTrue(conds) {
          conds := conds[Ready := True];
        } else {
          conds := conds[Ready := Unknown];
          if SomeSubFalse(status.conditions.value) { conds := conds[Ready := False]; }
        }
        assert conds == WithReady(status.conditions.value);
        status := status.(conditions := Some(conds));
      } else if o.nilReady {
        status := status.(conditions := Some(map[Ready := True]));
      }
    }

    /** The part of Reconcile in front of reconcileDelete and reconcileNormal; the
        answer says whether the pass ends there. */
    method Initialise() returns (ends: bool)
      modifies this`meta, this`status
      ensures var l := old(State());
              var cr := Resource(l.uid, l.meta, l.spec, l.memo.status);
              && ends == (AddsFinalizer(cr) || cr.status.conditions.None?)
              && (!ends ==> State() == l)
              && (ends && l.memo == Begin(l.store, cr).memo ==> Body(k, o, l.store, cr) == Stop(State(), DONE))
    {
      hide Run;
      if !meta.deleting && !meta.ours {
        meta := meta.(ours := true);
        return true;
      }
      if status.conditions.None? {
        status := status.(conditions := Some(AllUnknown(k.initial)));
        return true;
      }
      ends := false;
    }
  }

  lemma RunLast(k: Reconciler, o: Oracle, st: Stage, l: Local)
    ensures Run(k, o, Then(st, End), l) == Step(k, o, st, l)
  {
  }

  /** What the deferred function means for the caller, in terms of the store `now` to
      which it is applied. Ready is True exactly when everything else is. The finalizer
      is what the pass decided if that part was accepted, and otherwise stays; the
      stored status is the one in memory if it changed and was accepted, and otherwise
      stays. Nothing else in the store moves. The error is reported exactly when the
      reconciler reports and a part that had something to write did not get through. */
  lemma PatchMeans(k: Reconciler, o: Oracle, before: Resource, l: Local, result: Result)
    ensures var out := Finish(k, o, before, l, result, true);
            var now := Acts(l.store, o.env(Patch));
            var memory := out.last.memo.status;
            && (l.memo.status.conditions.Some? ==>
                  && memory.conditions.Some?
                  && (IsTrue(memory.conditions, Ready) <==> AllSubTrue(l.memo.status.conditions.value)))
            && out.store == now.(cr := out.store.cr)
            && (out.store.cr.Some? ==>
                  && now.cr.Some? && out.store.cr.value.spec == now.cr.value.spec
                  && out.store.cr.value.meta.ours ==
                     (if o.patchMeta && l.meta.ours != before.meta.ours then l.meta.ours else now.cr.value.meta.ours)
                  && out.store.cr.value.status ==
                     (if o.patchStatus && memory != before.status then memory else now.cr.value.status))
            && (out.result.failed <==>
                  || result.failed
                  || (k.reports && l.meta.ours != before.meta.ours && !(o.patchMeta && now.cr.Some?))
                  || (k.reports && memory != before.status && !(o.patchStatus && out.store.cr.Some?)))
            && out.result.requeue == result.requeue
  {
    hide Acts;
  }

  lemma FinishAny(k: Reconciler, o: Oracle, before: Resource, f: Flow)
    ensures var out := Finish(k, o, before, f.local, if f.Next? then DONE else f.result, true);
            FinishFlow(k, o, before, f).store == out.store && FinishFlow(k, o, before, f).result == out.result
  {
  }

  /** AutoscalingReconciler.Reconcile computes exactly Pass. */
  method ReconcileAutoscaling(namespace: string, objectHash: map<Var, string> -> string, o: Oracle, s0: Store)
    returns (s: Store, result: Result)
    ensures var p := Pass(Autoscaling(namespace, objectHash), o, s0); s == p.0 && result == p.1
  {
    hide Run, Acts, Finish, AutoscalingProgram, DeleteAodh;
    s := Acts(s0, o.env(Fetch));
    if o.reply(Fetch).err.Other? { return s, Result(false, true); }
    if s.cr.None? { return s, DONE; }
    var k := Autoscaling(namespace, objectHash);
    var cr := s.cr.value;
    var instance := new Instance(k, o, s, cr);
    ghost var f := Body(k, o, s, cr);
    var ends := instance.Initialise();
    if ends {
      result := DONE;
    } else if instance.meta.deleting {
      result := instance.AutoscalingDelete();
    } else {
      result := instance.AutoscalingNormal();
    }
    assert instance.Ends(f, result);
    FinishAny(k, o, cr, f);
    s, result := instance.PatchInstance(cr, result);
  }

  /** CeilometerReconciler.Reconcile computes exactly Pass. */
  method ReconcileCeilometer(namespace: string, objectHash: map<Var, string> -> string, o: Oracle, s0: Store)
    returns (s: Store, result: Result)
    ensures var p := Pass(Ceilometer(namespace, objectHash), o, s0); s == p.0 && result == p.1
  {
    hide Run, Acts, Finish, CeilometerProgram, DeleteCeilometer;
    s := Acts(s0, o.env(Fetch));
    if o.reply(Fetch).err.Other? { return s, Result(false, true); }
    if s.cr.None? { return s, DONE; }
    var k := Ceilometer(namespace, objectHash);
    var cr := s.cr.value;
    var instance := new Instance(k, o, s, cr);
    ghost var f := Body(k, o, s, cr);
    var ends := instance.Initialise();
    if ends {
      result := DONE;
    } else if instance.meta.deleting {
      result := instance.CeilometerDelete();
    } else {
      result := instance.CeilometerNormal();
    }
    assert instance.Ends(f, result);
    FinishAny(k, o, cr, f);
    s, result := instance.PatchInstance(cr, result);
  }

  lemma NormalAodhShape(b: bool, rest: Program)
    ensures NormalAodh(b, rest) ==
            Then(DefineWorkload, Then(Deploy, Then(OwnWorkload,
              ExposeAll(EndpointOrder(b), Then(Publish, Then(Register(KeystoneEndpoint), rest))))))
  {
    var p := Then(Publish, Then(Register(KeystoneEndpoint), rest));
    assert EndpointOrder(b)[1..][1..] == [];
    assert ExposeAll(EndpointOrder(b)[1..][1..], p) == p;
  }

  lemma AodhBehind(b: bool)
    ensures Behind(InitAodh(NormalAodh(b, End)))
  {
    var x := if b then Public else Internal;
    var y := if b then Internal else Public;
    var p := Then(Publish, Then(Register(KeystoneEndpoint), End));
    assert Behind(p);
    p := Then(Expose(y), Then(Address(y), p));
    assert Behind(p);
    p := Then(Expose(x), Then(Address(x), p));
    assert Behind(p);
    p := Then(DefineWorkload, Then(Deploy, Then(OwnWorkload, p)));
    assert Behind(p);
    p := Then(AwaitDatabase, Then(SyncDatabase, p));
    assert Behind(p);
    p := Then(Register(KeystoneService), Then(CreateDatabase, p));
    assert Behind(p);
  }
}
