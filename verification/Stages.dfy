/** One pass of a reconciler as a sequence of stages.

    A stage is one library or API call together with the status writes around it.
    Before a stage, everybody else may act on the cluster; the call itself is
    answered by an oracle that may fail it, ask for a requeue, or fail it although
    it took effect. A pass stops at the first stage that does not go through.
 */
module Stages {
  import opened Conditions
  import opened Cluster

  datatype Err = Nil | NotFound | Other

  /** The (ctrl.Result, error) pair of a call; `took` says whether a call that
      reports an error was carried out all the same. */
  datatype Reply = Reply(err: Err, requeue: bool, took: bool)

  /** What Reconcile returns: a non-empty ctrl.Result, an error. */
  datatype Result = Result(requeue: bool, failed: bool)

  const DONE := Result(false, false)

  datatype SecretSource = FromSpec | FromTransport

  datatype Service = Aodh | CeilometerCentral | CeilometerCompute

  /** The variables that are hashed: one for each secret that is read and two for
      each service whose configuration is rendered. Module InputHash shows that
      their names never collide. */
  datatype Var = SecretVar(name: string) | ScriptsVar(service: Service) | ConfigVar(service: Service)

  datatype Stage =
    | Fetch
    // before the gate
    | Rbac
    | MarkDone(cond: Cond)
    | Transport
    | ReadSecret(source: SecretSource)
    | Require(cond: Cond)
    | Prometheus
    | Render(service: Service)
    | Gate
    // after the gate
    | InitSecret
    | Register(dep: Dependent)
    | CreateDatabase
    | AwaitDatabase
    | SyncDatabase
    | DefineWorkload
    | Deploy
    | OwnWorkload
    | Expose(endpoint: Endpoint)
    | Address(endpoint: Endpoint)
    | Publish
    | ScrapeService
    // deletion
    | ReleaseFinalizer(dep: Dependent)
    | DropFinalizer
    // the deferred write
    | Patch

  /** The values that a rendered configuration takes from the status. */
  datatype RenderInput = RenderInput(
    transportURLSecret: string, prometheusHost: string, prometheusPort: int, databaseHostname: string)

  /** All the answers that one pass can get: what everybody else does before each
      stage, how each call is answered, and the values that the calls return. */
  datatype Oracle = Oracle(
    env: Stage -> seq<EnvAction>,
    reply: Stage -> Reply,
    rbac: Conds,
    transportSecret: string,
    secretHash: string -> string,
    isReady: Cond -> bool,
    scripts: Service -> string,
    config: (Service, RenderInput) -> string,
    mirror: Dependent -> Option<CondStatus>,
    hostname: string,
    jobHash: string,
    replicas: int,
    address: Endpoint -> string,
    publicFirst: bool,
    nilReady: bool,
    patchMeta: bool,
    patchStatus: bool)

  /** The log of condition writes: those that the reconciler makes itself, those that
      it mirrors from another object, and those that ReconcileRbac makes. */
  datatype Mark =
    | Mark(cond: Cond, status: CondStatus)
    | Mirrored(cond: Cond, status: CondStatus)
    | RbacSet(conds: Conds)

  /** What a pass keeps in memory besides the identity of the instance: its
      status, the hash variables, the accepted input hash, the endpoints collected
      so far and the log of condition writes. */
  datatype Memo = Memo(
    status: Status,
    vars: map<Var, string>,
    inputHash: string,
    endpoints: map<Endpoint, string>,
    marks: seq<Mark>)

  /** The state of a running pass: the cluster and the in-memory instance. */
  datatype Local = Local(store: Store, uid: nat, meta: Meta, spec: Spec, memo: Memo)

  /** Whether a stage lets the pass go on. */
  datatype Verdict = Go(memo: Memo) | Halt(memo: Memo, result: Result)

  datatype Flow = Next(local: Local) | Stop(local: Local, result: Result)

  datatype Program = End | Then(head: Stage, tail: Program)

  /** A reconciler of one namespace: the default host of prometheus there, the initial
      condition list, its two programs (the first for both orders of the endpoints),
      the hash of a variable map, and two differences in error handling. `swallows`:
      after the gate a non-empty result hides an error. `reports`: an error of the
      deferred patch replaces the returned error. */
  datatype Reconciler = Reconciler(
    prometheusHost: string,
    initial: set<Cond>,
    internalFirst: Program,
    publicFirst: Program,
    delete: Program,
    objectHash: map<Var, string> -> string,
    swallows: bool,
    reports: bool)

  // ---------------------------------------------------------------- status writes

  function GetConds(m: Memo): Conds {
    if m.status.conditions.Some? then m.status.conditions.value else map[]
  }

  function SetCond(m: Memo, c: Cond, s: CondStatus): Memo {
    m.(status := m.status.(conditions := Some(GetConds(m)[c := s])))
  }

  function SetMark(m: Memo, c: Cond, s: CondStatus): Memo {
    SetCond(m, c, s).(marks := m.marks + [Mark(c, s)])
  }

  function SetMirror(m: Memo, c: Cond, s: CondStatus): Memo {
    SetCond(m, c, s).(marks := m.marks + [Mirrored(c, s)])
  }

  /** ReconcileRbac may write the three RBAC conditions, to any status. */
  function SetRbac(m: Memo, w: Conds): Memo {
    m.(status := m.status.(conditions := Some(GetConds(m) + RbacPart(w))), marks := m.marks + [RbacSet(RbacPart(w))])
  }

  const RBAC: set<Cond> := {ServiceAccountReady, RoleReady, RoleBindingReady}

  function RbacPart(w: Conds): Conds {
    map t | t in RBAC && t in w :: w[t]
  }

  function RegisterCond(d: Dependent): Cond {
    match d
    case Database => DBReady
    case KeystoneService => KeystoneServiceReady
    case KeystoneEndpoint => KeystoneEndpointReady
  }

  function SecretName(spec: Spec, m: Memo, source: SecretSource): string {
    match source
    case FromSpec => spec.secret
    case FromTransport => m.status.transportURLSecret
  }

  function RenderInputOf(st: Status): RenderInput {
    RenderInput(st.transportURLSecret, st.prometheusHost, st.prometheusPort, st.databaseHostname)
  }

  const PROMETHEUS_PORT := 9090

  function Resolved(defaultHost: string, spec: Spec, st: Status): Status {
    st.(prometheusHost := if spec.prometheusHost == "" then defaultHost else spec.prometheusHost,
        prometheusPort := if spec.prometheusPort == 0 then PROMETHEUS_PORT else spec.prometheusPort)
  }

  /** Results after the gate, where a reconciler may let a result hide an error. */
  function Late(k: Reconciler, requeue: bool): Result {
    Result(requeue, !(k.swallows && requeue))
  }

  // ---------------------------------------------------------------- one stage

  /** The verdict of a guarded call: an error or a requeue marks `c` False. */
  function Guard(r: Reply, onError: Result, c: Cond, m: Memo, next: Memo): Verdict {
    if !r.err.Nil? then Halt(SetMark(m, c, False), onError)
    else if r.requeue then Halt(SetMark(m, c, False), Result(true, false))
    else Go(next)
  }

  /** The stages up to and including the gate. */
  function JudgeInput(k: Reconciler, o: Oracle, st: Stage, spec: Spec, m: Memo): Verdict {
    var r := o.reply(st);
    match st
    case Rbac =>
      if r.err.Nil? && !r.requeue then Go(SetRbac(m, o.rbac))
      else Halt(SetRbac(m, o.rbac), Result(r.requeue, !r.err.Nil?))
    case MarkDone(c) =>
      Go(SetMark(m, c, True))
    case Transport =>
      if !r.err.Nil? then Halt(SetMark(m, RabbitMqTransportURLReady, False), Result(false, true))
      else
        var m := m.(status := m.status.(transportURLSecret := o.transportSecret));
        if o.transportSecret == "" then Halt(SetMark(m, RabbitMqTransportURLReady, False), Result(true, false))
        else Go(SetMark(m, RabbitMqTransportURLReady, True))
    case ReadSecret(source) =>
      var name := SecretName(spec, m, source);
      if !r.err.Nil? then Halt(SetMark(m, InputReady, False), Result(r.err.NotFound?, true))
      else Go(m.(vars := m.vars[SecretVar(name) := o.secretHash(name)]))
    case Require(c) =>
      if !r.err.Nil? then Halt(SetMark(m, c, False), Result(r.err.NotFound?, true))
      else if !o.isReady(c) then Halt(SetMark(m, c, False), Result(true, true))
      else Go(SetMark(m, c, True))
    case Prometheus =>
      Go(m.(status := Resolved(k.prometheusHost, spec, m.status)))
    case Render(service) =>
      if !r.err.Nil? then Halt(SetMark(m, ServiceConfigReady, False), Result(false, true))
      else Go(m.(vars := m.vars[ScriptsVar(service) := o.scripts(service)]
                               [ConfigVar(service) := o.config(service, RenderInputOf(m.status))]))
    case Gate =>
      if !r.err.Nil? then Halt(SetMark(m, ServiceConfigReady, False), Result(false, true))
      else
        var h := k.objectHash(m.vars);
        var recorded := m.(status := m.status.(hash := m.status.hash[InputHash := h]));
        if Lookup(m.status.hash, InputHash) != h then Halt(recorded, DONE)
        else Go(recorded.(inputHash := h))
    case _ => Go(m)
  }

  /** The stages that set up keystone and the database. */
  function JudgeInit(k: Reconciler, o: Oracle, st: Stage, m: Memo): Verdict {
    var r := o.reply(st);
    match st
    case InitSecret =>
      if !r.err.Nil? then Halt(m, Late(k, r.err.NotFound?)) else Go(m)
    case Register(d) =>
      if !r.err.Nil? then Halt(m, Late(k, r.requeue))
      else
        var m := if o.mirror(d).Some? then SetMirror(m, RegisterCond(d), o.mirror(d).value) else m;
        if r.requeue then Halt(m, Result(true, false)) else Go(m)
    case CreateDatabase =>
      Guard(r, Result(false, true), DBReady, m, m)
    case AwaitDatabase =>
      Guard(r, Late(k, r.requeue), DBReady, m,
            SetMark(m.(status := m.status.(databaseHostname := o.hostname)), DBReady, True))
    case SyncDatabase =>
      if r.requeue then Halt(SetMark(m, DBSyncReady, False), Result(true, false))
      else if !r.err.Nil? then Halt(SetMark(m, DBSyncReady, False), Result(false, true))
      else Go(SetMark(m.(status := m.status.(hash := m.status.hash[DbSyncHash := o.jobHash])), DBSyncReady, True))
    case _ => Go(m)
  }

  /** The stages that deploy and expose the service, and those of a deletion. */
  function JudgeDeploy(k: Reconciler, o: Oracle, st: Stage, m: Memo): Verdict {
    var r := o.reply(st);
    match st
    case DefineWorkload | ScrapeService =>
      if !r.err.Nil? then Halt(m, Result(false, true)) else Go(m)
    case Deploy =>
      Guard(r, Late(k, r.requeue), DeploymentReady, m, m)
    case OwnWorkload =>
      if !r.err.Nil? then Halt(m, Result(false, true))
      else
        var m := m.(status := m.status.(readyCount := o.replicas));
        Go(if o.replicas > 0 then SetMark(m, DeploymentReady, True) else m)
    case Expose(_) =>
      Guard(r, Late(k, r.requeue), ExposeServiceReady, m, m)
    case Address(e) =>
      if !r.err.Nil? then Halt(m, Result(false, true))
      else Go(m.(endpoints := m.endpoints[e := o.address(e)]))
    case Publish =>
      Go(SetMark(m.(status := m.status.(endpoints := m.endpoints)), ExposeServiceReady, True))
    case ReleaseFinalizer(_) =>
      if r.err.Other? then Halt(m, Result(false, true)) else Go(m)
    case _ => Go(m)
  }

  predicate BeforeGate(st: Stage) {
    || st.Rbac? || st.MarkDone? || st.Transport? || st.ReadSecret? || st.Require?
    || st.Prometheus? || st.Render? || st.Gate?
  }

  predicate InInit(st: Stage) {
    st.InitSecret? || st.Register? || st.CreateDatabase? || st.AwaitDatabase? || st.SyncDatabase?
  }

  function Judge(k: Reconciler, o: Oracle, st: Stage, spec: Spec, m: Memo): Verdict {
    if BeforeGate(st) then JudgeInput(k, o, st, spec, m)
    else if InInit(st) then JudgeInit(k, o, st, m)
    else JudgeDeploy(k, o, st, m)
  }

  /** The write of a stage to the cluster, carried out when the call succeeds and
      possibly also when it reports an error. Whether an object to let go of is found is
      up to the store: a not-found answer for one that is there does not occur. */
  function Touch(o: Oracle, st: Stage, inputHash: string, s: Store): Store {
    var r := o.reply(st);
    var done := r.err.Nil? || r.took;
    match st
    case Register(d) => if done then Acquire(s, d) else s
    case CreateDatabase => if done then Acquire(s, Database) else s
    case Deploy => if done then s.(workload := Some(inputHash)) else s
    case ReleaseFinalizer(d) =>
      // reads are linearizable, so not-found is answered exactly when there is no object
      if d !in s.deps || (r.err.Other? && !r.took) then s else Release(s, d)
    case _ => s
  }

  function Step(k: Reconciler, o: Oracle, st: Stage, l: Local): Flow {
    var s := Touch(o, st, l.memo.inputHash, Acts(l.store, o.env(st)));
    var meta := if st.DropFinalizer? then l.meta.(ours := false) else l.meta;
    match Judge(k, o, st, l.spec, l.memo)
    case Go(m) => Next(Local(s, l.uid, meta, l.spec, m))
    case Halt(m, r) => Stop(Local(s, l.uid, meta, l.spec, m), r)
  }

  function Run(k: Reconciler, o: Oracle, p: Program, l: Local): Flow {
    match p
    case End => Next(l)
    case Then(st, rest) =>
      match Step(k, o, st, l)
      case Next(l') => Run(k, o, rest, l')
      case Stop(l', r) => Stop(l', r)
  }

  // ---------------------------------------------------------------- one pass

  /** The end of a pass: the store, what Reconcile returns, the instance as it was
      last in memory, whether its program ran to its end, and whether the deferred
      patch had something to write and failed. */
  datatype Outcome = Outcome(
    store: Store, result: Result, last: Local, completed: bool, patchFailed: bool)

  /** The status that the deferred function writes: Ready recomputed. On the pass
      that adds the finalizer there may be no list yet; what is persisted then is
      not determined by the operator's code. */
  function Refreshed(o: Oracle, st: Status): Status {
    st.(conditions :=
      match st.conditions
      case None => if o.nilReady then Some(map[Ready := True]) else None
      case Some(c) => Some(WithReady(c)))
  }

  /** The merge patch of finalizer and status; it goes to whatever object now has
      the name. The two parts are separate writes and each may fail. */
  function Patched(o: Oracle, before: Resource, ours: bool, status: Status, s: Store): Store {
    if s.cr.None? then s
    else
      var s1 := if o.patchMeta && ours != before.meta.ours
                then PutMeta(s, s.cr.value.meta.(ours := ours)) else s;
      if s1.cr.None? || !o.patchStatus || status == before.status then s1
      else s1.(cr := Some(s1.cr.value.(status := status)))
  }

  predicate PatchFails(o: Oracle, before: Resource, ours: bool, status: Status, s: Store) {
    || (ours != before.meta.ours && (!o.patchMeta || s.cr.None?))
    || (status != before.status && (!o.patchStatus || Patched(o, before, ours, status, s).cr.None?))
  }

  function Finish(k: Reconciler, o: Oracle, before: Resource, l: Local, r: Result, completed: bool): Outcome {
    var s := Acts(l.store, o.env(Patch));
    var status := Refreshed(o, l.memo.status);
    var bad := PatchFails(o, before, l.meta.ours, status, s);
    Outcome(Patched(o, before, l.meta.ours, status, s),
            if k.reports && bad then r.(failed := true) else r,
            l.(memo := l.memo.(status := status)), completed, bad)
  }

  function FinishFlow(k: Reconciler, o: Oracle, before: Resource, f: Flow): Outcome {
    match f
    case Next(l) => Finish(k, o, before, l, DONE, true)
    case Stop(l, r) => Finish(k, o, before, l, r, false)
  }

  function Begin(s: Store, cr: Resource): Local {
    Local(s, cr.uid, cr.meta, cr.spec, Memo(cr.status, map[], "", map[], []))
  }

  predicate AddsFinalizer(cr: Resource) {
    !cr.meta.deleting && !cr.meta.ours
  }

  /** The program for live resources; the endpoint map is visited in either order. */
  function Normal(k: Reconciler, publicFirst: bool): Program {
    if publicFirst then k.publicFirst else k.internalFirst
  }

  /** The program of a pass that goes past the initialisation of the resource. */
  function ProgramOf(k: Reconciler, o: Oracle, cr: Resource): Program {
    if cr.meta.deleting then k.delete else Normal(k, o.publicFirst)
  }

  /** A pass on an existing resource, up to the deferred write. */
  function Body(k: Reconciler, o: Oracle, s: Store, cr: Resource): Flow {
    var l := Begin(s, cr);
    if AddsFinalizer(cr) then
      Stop(l.(meta := cr.meta.(ours := true)), DONE)
    else if cr.status.conditions.None? then
      Stop(l.(memo := l.memo.(status := cr.status.(conditions := Some(AllUnknown(k.initial))))), DONE)
    else
      Run(k, o, ProgramOf(k, o, cr), l)
  }

  /** One Reconcile call; the outcome is None when there was no object to work on
      or the read failed. */
  function Pass(k: Reconciler, o: Oracle, s0: Store): (Store, Result, Option<Outcome>) {
    var s := Acts(s0, o.env(Fetch));
    if o.reply(Fetch).err.Other? then (s, Result(false, true), None)
    else if s.cr.None? then (s, DONE, None)
    else
      var out := FinishFlow(k, o, s.cr.value, Body(k, o, s, s.cr.value));
      (out.store, out.result, Some(out))
  }

  function Reconcile(k: Reconciler, o: Oracle, s: Store): Store {
    Pass(k, o, s).0
  }

  // ---------------------------------------------------------------- runs

  datatype Event = Reconciles(o: Oracle) | Acted(a: EnvAction)

  function Exec1(k: Reconciler, s: Store, e: Event): Store {
    match e
    case Reconciles(o) => Reconcile(k, o, s)
    case Acted(a) => Act(s, a)
  }

  function Exec(k: Reconciler, s: Store, es: seq<Event>): Store
    decreases |es|
  {
    if es == [] then s else Exec1(k, Exec(k, s, es[..|es| - 1]), es[|es| - 1])
  }
}
