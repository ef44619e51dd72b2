/** Which answers let a pass go on, and what a pass does for every combination of
    answers. */
module Checks {
  import opened Conditions
  import opened Cluster
  import opened Stages
  import opened Programs
  import opened Discipline
  import opened Convergence
  import opened GateInputs

  // ---------------------------------------------------------------- one stage

  predicate Fine(r: Reply) {
    r.err.Nil? && !r.requeue
  }

  predicate AsksNobody(st: Stage) {
    st.Fetch? || st.MarkDone? || st.Prometheus? || st.Publish? || st.DropFinalizer? || st.Patch?
  }

  /** The calls that may also ask for a requeue. */
  predicate MayRequeue(st: Stage) {
    || st.Rbac? || st.Register? || st.CreateDatabase? || st.AwaitDatabase? || st.SyncDatabase?
    || st.Deploy? || st.Expose?
  }

  /** The answers that a stage needs. An object to let go of may be missing. */
  predicate Answered(o: Oracle, st: Stage) {
    || AsksNobody(st)
    || (st.ReleaseFinalizer? && o.reply(st).err.NotFound?)
    || (&& o.reply(st).err.Nil?
        && (MayRequeue(st) ==> !o.reply(st).requeue)
        && (st.Transport? ==> o.transportSecret != "")
        && (st.Require? ==> o.isReady(st.cond)))
  }

  /** And the gate needs the hash of what was collected to be the recorded one. */
  predicate Clears(k: Reconciler, o: Oracle, st: Stage, m: Memo) {
    Answered(o, st) && (st.Gate? ==> Lookup(m.status.hash, InputHash) == k.objectHash(m.vars))
  }

  /** Whether a stage that stops the pass asks for a requeue. */
  predicate Requeues(o: Oracle, st: Stage) {
    var r := o.reply(st);
    || (MayRequeue(st) && r.requeue && (st.CreateDatabase? ==> r.err.Nil?))
    || ((st.ReadSecret? || st.InitSecret? || st.Require?) && r.err.NotFound?)
    || ((st.Require? || st.Transport?) && r.err.Nil?)
  }

  /** Whether it returns an error. Behind the gate Autoscaling loses one that comes with
      a requeue. */
  predicate Reports(k: Reconciler, o: Oracle, st: Stage) {
    var r := o.reply(st);
    if st.Require? then true
    else if st.SyncDatabase? then !r.requeue
    else
      && !r.err.Nil?
      && (st.InitSecret? ==> !(k.swallows && r.err.NotFound?))
      && (st.Register? || st.AwaitDatabase? || st.Deploy? || st.Expose? ==> !(k.swallows && r.requeue))
  }

  predicate Verdicts(k: Reconciler, o: Oracle, st: Stage, m: Memo, v: Verdict) {
    && (v.Go? <==> Clears(k, o, st, m))
    && (v.Halt? ==> v.result == Result(Requeues(o, st), Reports(k, o, st)))
  }

  lemma InputVerdict(k: Reconciler, o: Oracle, st: Stage, spec: Spec, m: Memo)
    requires BeforeGate(st)
    ensures Verdicts(k, o, st, m, JudgeInput(k, o, st, spec, m))
  {
  }

  lemma InitVerdict(k: Reconciler, o: Oracle, st: Stage, m: Memo)
    requires InInit(st)
    ensures Verdicts(k, o, st, m, JudgeInit(k, o, st, m))
  {
  }

  lemma DeployVerdict(k: Reconciler, o: Oracle, st: Stage, m: Memo)
    requires !BeforeGate(st) && !InInit(st)
    ensures Verdicts(k, o, st, m, JudgeDeploy(k, o, st, m))
  {
  }

  /** Each stage goes through exactly when its answers let it, and otherwise returns what
      they call for. */
  lemma StageVerdict(k: Reconciler, o: Oracle, st: Stage, spec: Spec, m: Memo)
    ensures var v := Judge(k, o, st, spec, m);
            && (v.Go? <==> Clears(k, o, st, m))
            && (v.Halt? ==> v.result == Result(Requeues(o, st), Reports(k, o, st)))
  {
    hide JudgeInput, JudgeInit, JudgeDeploy, Clears, Requeues, Reports;
    if BeforeGate(st) {
      InputVerdict(k, o, st, spec, m);
    } else if InInit(st) {
      InitVerdict(k, o, st, m);
    } else {
      DeployVerdict(k, o, st, m);
    }
  }

  // ---------------------------------------------------------------- the fields of the status

  /** What a stage does to the status besides conditions and hashes. */
  predicate Fields(k: Reconciler, o: Oracle, st: Stage, spec: Spec, m: Memo, v: Verdict) {
    v.memo.status == m.status.(
      conditions := v.memo.status.conditions,
      hash := v.memo.status.hash,
      transportURLSecret :=
        if st.Transport? && o.reply(st).err.Nil? then o.transportSecret else m.status.transportURLSecret,
      prometheusHost :=
        if !st.Prometheus? then m.status.prometheusHost
        else if spec.prometheusHost != "" then spec.prometheusHost else k.prometheusHost,
      prometheusPort :=
        if !st.Prometheus? then m.status.prometheusPort
        else if spec.prometheusPort != 0 then spec.prometheusPort else 9090,
      databaseHostname := if st.AwaitDatabase? && v.Go? then o.hostname else m.status.databaseHostname,
      readyCount := if st.OwnWorkload? && v.Go? then o.replicas else m.status.readyCount,
      endpoints := if st.Publish? then m.endpoints else m.status.endpoints)
  }

  /** What it does to the hashes and to the values that the pass collects. */
  predicate Collects(k: Reconciler, o: Oracle, st: Stage, m: Memo, v: Verdict) {
    var r := v.memo;
    && r.status.hash ==
         (if st.Gate? && o.reply(st).err.Nil? then m.status.hash[InputHash := k.objectHash(m.vars)]
          else if st.SyncDatabase? && v.Go? then m.status.hash[DbSyncHash := o.jobHash] else m.status.hash)
    && r.endpoints == (if st.Address? && v.Go? then m.endpoints[st.endpoint := o.address(st.endpoint)] else m.endpoints)
    && r.inputHash == (if st.Gate? && v.Go? then k.objectHash(m.vars) else m.inputHash)
    && (v.Halt? || (!st.ReadSecret? && !st.Render?) ==> r.vars == m.vars)
  }

  lemma InputFields(k: Reconciler, o: Oracle, st: Stage, spec: Spec, m: Memo)
    requires BeforeGate(st)
    ensures Fields(k, o, st, spec, m, JudgeInput(k, o, st, spec, m))
  {
    hide RbacPart;
  }

  lemma InputCollects(k: Reconciler, o: Oracle, st: Stage, spec: Spec, m: Memo)
    requires BeforeGate(st)
    ensures Collects(k, o, st, m, JudgeInput(k, o, st, spec, m))
  {
    hide RbacPart;
  }

  lemma InitFields(k: Reconciler, o: Oracle, st: Stage, spec: Spec, m: Memo)
    requires InInit(st)
    ensures Fields(k, o, st, spec, m, JudgeInit(k, o, st, m))
  {
  }

  lemma InitCollects(k: Reconciler, o: Oracle, st: Stage, m: Memo)
    requires InInit(st)
    ensures Collects(k, o, st, m, JudgeInit(k, o, st, m))
  {
  }

  lemma DeployFields(k: Reconciler, o: Oracle, st: Stage, spec: Spec, m: Memo)
    requires !BeforeGate(st) && !InInit(st)
    ensures Fields(k, o, st, spec, m, JudgeDeploy(k, o, st, m))
  {
  }

  lemma DeployCollects(k: Reconciler, o: Oracle, st: Stage, m: Memo)
    requires !BeforeGate(st) && !InInit(st)
    ensures Collects(k, o, st, m, JudgeDeploy(k, o, st, m))
  {
  }

  /** Every field of the status has its one stage, which writes it from its own answer;
      the others leave it alone, those that stop the pass included. */
  lemma StageFields(k: Reconciler, o: Oracle, st: Stage, spec: Spec, m: Memo)
    ensures var v := Judge(k, o, st, spec, m); Fields(k, o, st, spec, m, v) && Collects(k, o, st, m, v)
  {
    hide JudgeInput, JudgeInit, JudgeDeploy, Fields, Collects;
    if BeforeGate(st) {
      InputFields(k, o, st, spec, m);
      InputCollects(k, o, st, spec, m);
    } else if InInit(st) {
      InitFields(k, o, st, spec, m);
      InitCollects(k, o, st, m);
    } else {
      DeployFields(k, o, st, spec, m);
      DeployCollects(k, o, st, m);
    }
  }

  // ---------------------------------------------------------------- the log is truthful

  function Replayed(c: Conds, w: Mark): Conds {
    match w
    case Mark(t, s) => c[t := s]
    case Mirrored(t, s) => c[t := s]
    case RbacSet(ws) => c + ws
  }

  /** The list after the writes of a log. */
  function Replay(c: Conds, marks: seq<Mark>): Conds
    decreases |marks|
  {
    if marks == [] then c else Replayed(Replay(c, marks[..|marks| - 1]), marks[|marks| - 1])
  }

  /** The log tells the whole story of the condition list. */
  predicate Truthful(c: Conds, m: Memo) {
    m.status.conditions == Some(Replay(c, m.marks))
  }

  lemma ReplayMore(c: Conds, marks: seq<Mark>, w: Mark)
    ensures Replay(c, marks + [w]) == Replayed(Replay(c, marks), w)
  {
    assert (marks + [w])[..|marks|] == marks;
  }

  /** One write at most, and it is logged. */
  predicate Logs(m: Memo, r: Memo) {
    || (r.marks == m.marks && r.status.conditions == m.status.conditions)
    || (&& |r.marks| == |m.marks| + 1 && r.marks[..|m.marks|] == m.marks
        && r.status.conditions == Some(Replayed(GetConds(m), r.marks[|m.marks|])))
  }

  lemma InputLogs(k: Reconciler, o: Oracle, st: Stage, spec: Spec, m: Memo)
    requires BeforeGate(st)
    ensures Logs(m, JudgeInput(k, o, st, spec, m).memo)
  {
    hide RbacPart;
  }

  lemma InitLogs(k: Reconciler, o: Oracle, st: Stage, m: Memo)
    requires InInit(st)
    ensures Logs(m, JudgeInit(k, o, st, m).memo)
  {
  }

  lemma DeployLogs(k: Reconciler, o: Oracle, st: Stage, m: Memo)
    requires !BeforeGate(st) && !InInit(st)
    ensures Logs(m, JudgeDeploy(k, o, st, m).memo)
  {
  }

  lemma JudgeLogs(k: Reconciler, o: Oracle, st: Stage, spec: Spec, m: Memo)
    ensures Logs(m, Judge(k, o, st, spec, m).memo)
  {
    hide JudgeInput, JudgeInit, JudgeDeploy, Logs;
    if BeforeGate(st) {
      InputLogs(k, o, st, spec, m);
    } else if InInit(st) {
      InitLogs(k, o, st, m);
    } else {
      DeployLogs(k, o, st, m);
    }
  }

  lemma LogsTruthful(c: Conds, m: Memo, r: Memo)
    requires Truthful(c, m) && Logs(m, r)
    ensures Truthful(c, r)
  {
    if r.marks != m.marks {
      var w := r.marks[|m.marks|];
      assert r.marks == m.marks + [w];
      ReplayMore(c, m.marks, w);
    }
  }

  lemma {:induction false} RunTruthful(k: Reconciler, o: Oracle, p: Program, l: Local, c: Conds)
    requires Truthful(c, l.memo)
    ensures Truthful(c, Run(k, o, p, l).local.memo)
    decreases p
  {
    if p.Then? {
      hide Judge, Truthful, Logs;
      JudgeLogs(k, o, p.head, l.spec, l.memo);
      var f := Step(k, o, p.head, l);
      LogsTruthful(c, l.memo, f.local.memo);
      if f.Next? { RunTruthful(k, o, p.tail, f.local, c); }
    }
  }

  /** For every pass of every reconciler, failing or not: the final condition list is the
      one that was read, with the logged writes in their order and Ready recomputed. */
  lemma LogIsTruthful(k: Reconciler, o: Oracle, s: Store)
    requires Pass(k, o, s).2.Some?
    ensures var cr := Acts(s, o.env(Fetch)).cr.value;
            var last := Pass(k, o, s).2.value.last.memo;
            cr.status.conditions.Some? ==>
              last.status.conditions == Some(WithReady(Replay(cr.status.conditions.value, last.marks)))
  {
    hide Acts, Run, Patched, PatchFails;
    var s1 := Acts(s, o.env(Fetch));
    var cr := s1.cr.value;
    if cr.status.conditions.Some? {
      RunTruthful(k, o, ProgramOf(k, o, cr), Begin(s1, cr), cr.status.conditions.value);
    }
  }

  /** ReconcileRbac writes its own three conditions and no others. */
  lemma RbacWrites(w: Conds)
    ensures RbacPart(w).Keys == w.Keys * {ServiceAccountReady, RoleReady, RoleBindingReady}
    ensures forall c :: c in RbacPart(w) ==> RbacPart(w)[c] == w[c]
  {
  }

  /** A read that fails is reported, a missing object is not; either way nothing is done. */
  lemma FetchOutcome(k: Reconciler, o: Oracle, s: Store)
    ensures var p := Pass(k, o, s);
            var s1 := Acts(s, o.env(Fetch));
            && (p.2.None? <==> o.reply(Fetch).err.Other? || s1.cr.None?)
            && (p.2.None? ==> p.0 == s1 && p.1 == Result(false, o.reply(Fetch).err.Other?))
            && (p.2.Some? ==> p.0 == p.2.value.store && p.1 == p.2.value.result)
  {
    hide Acts, Body;
  }

  // ---------------------------------------------------------------- runs

  /** A run stops at the first stage that its answers do not let through, and returns
      what they call for. */
  lemma {:induction false} RunStops(k: Reconciler, o: Oracle, p: Program, l: Local) returns (n: nat)
    ensures n <= Length(p) && (Run(k, o, p, l).Next? <==> n == Length(p))
    ensures forall i :: 0 <= i < n ==>
              && Run(k, o, Take(p, i), l).Next?
              && Clears(k, o, StageAt(p, i), Run(k, o, Take(p, i), l).local.memo)
    ensures n < Length(p) ==>
              var st := StageAt(p, n);
              && Run(k, o, Take(p, n), l).Next?
              && !Clears(k, o, st, Run(k, o, Take(p, n), l).local.memo)
              && Run(k, o, p, l).result == Result(Requeues(o, st), Reports(k, o, st))
    decreases p
  {
    n := 0;
    if p.Then? {
      hide Judge, Clears, Requeues, Reports;
      StageVerdict(k, o, p.head, l.spec, l.memo);
      var f := Step(k, o, p.head, l);
      if f.Next? {
        var j := RunStops(k, o, p.tail, f.local);
        n := j + 1;
        forall i | 0 <= i <= n
          ensures Run(k, o, Take(p, i), l) == if i == 0 then Next(l) else Run(k, o, Take(p.tail, i - 1), f.local)
        {
          if i > 0 { assert Take(p, i) == Then(p.head, Take(p.tail, i - 1)); }
        }
      }
    }
  }

  predicate GateFree(p: Program) {
    p.Then? ==> !p.head.Gate? && GateFree(p.tail)
  }

  predicate AllAnswered(o: Oracle, p: Program) {
    p.Then? ==> Answered(o, p.head) && AllAnswered(o, p.tail)
  }

  /** Between gates only the answers matter. */
  lemma {:induction false} RunAnswered(k: Reconciler, o: Oracle, p: Program, l: Local)
    requires GateFree(p)
    ensures Run(k, o, p, l).Next? <==> AllAnswered(o, p)
    decreases p
  {
    if p.Then? {
      hide Judge, Answered, Requeues, Reports;
      StageVerdict(k, o, p.head, l.spec, l.memo);
      var f := Step(k, o, p.head, l);
      if f.Next? { RunAnswered(k, o, p.tail, f.local); }
    }
  }

  lemma Unroll(o: Oracle, st: Stage, rest: Program)
    ensures AllAnswered(o, Then(st, rest)) <==> Answered(o, st) && AllAnswered(o, rest)
    ensures GateFree(Then(st, rest)) <==> !st.Gate? && GateFree(rest)
  {
  }

  // ---------------------------------------------------------------- Autoscaling

  /** Everything that an Autoscaling pass asks for in front of the gate. */
  predicate AodhInputsFound(o: Oracle) {
    && Fine(o.reply(Rbac))
    && o.reply(Transport).err.Nil? && o.transportSecret != ""
    && o.reply(ReadSecret(FromSpec)).err.Nil?
    && o.reply(Require(MemcachedReady)).err.Nil? && o.isReady(MemcachedReady)
    && o.reply(Require(HeatReady)).err.Nil? && o.isReady(HeatReady)
    && o.reply(ReadSecret(FromTransport)).err.Nil?
    && o.reply(Render(Aodh)).err.Nil?
  }

  /** And behind it. */
  predicate AodhServed(o: Oracle) {
    && o.reply(InitSecret).err.Nil?
    && Fine(o.reply(Register(KeystoneService)))
    && Fine(o.reply(CreateDatabase)) && Fine(o.reply(AwaitDatabase)) && Fine(o.reply(SyncDatabase))
    && o.reply(DefineWorkload).err.Nil? && Fine(o.reply(Deploy)) && o.reply(OwnWorkload).err.Nil?
    && Fine(o.reply(Expose(Internal))) && o.reply(Address(Internal)).err.Nil?
    && Fine(o.reply(Expose(Public))) && o.reply(Address(Public)).err.Nil?
    && Fine(o.reply(Register(KeystoneEndpoint)))
  }

  lemma PrepareAsks(o: Oracle)
    ensures AllAnswered(o, PrepareAutoscaling(End)) <==>
              && Answered(o, Rbac) && Answered(o, MarkDone(ServiceConfigReady)) && Answered(o, Transport)
              && Answered(o, ReadSecret(FromSpec))
              && Answered(o, Require(MemcachedReady)) && Answered(o, Require(HeatReady))
              && Answered(o, ReadSecret(FromTransport)) && Answered(o, Prometheus) && Answered(o, Render(Aodh))
    ensures GateFree(PrepareAutoscaling(End))
  {
    assert AllAnswered(o, End) && GateFree(End);
    hide AllAnswered, GateFree, Answered;
    var p := End;
    Unroll(o, Render(Aodh), p); p := Then(Render(Aodh), p);
    Unroll(o, Prometheus, p); p := Then(Prometheus, p);
    Unroll(o, ReadSecret(FromTransport), p); p := Then(ReadSecret(FromTransport), p);
    Unroll(o, Require(HeatReady), p); p := Then(Require(HeatReady), p);
    Unroll(o, Require(MemcachedReady), p); p := Then(Require(MemcachedReady), p);
    Unroll(o, ReadSecret(FromSpec), p); p := Then(ReadSecret(FromSpec), p);
    Unroll(o, Transport, p); p := Then(Transport, p);
    Unroll(o, MarkDone(ServiceConfigReady), p); p := Then(MarkDone(ServiceConfigReady), p);
    Unroll(o, Rbac, p);
  }

  lemma PrepareAnswered(o: Oracle)
    ensures AllAnswered(o, PrepareAutoscaling(End)) <==> AodhInputsFound(o)
    ensures GateFree(PrepareAutoscaling(End))
  {
    hide AllAnswered, GateFree, PrepareAutoscaling;
    PrepareAsks(o);
  }

  lemma ExposedAnswered(o: Oracle, b: bool, rest: Program)
    requires GateFree(rest)
    ensures var x := if b then Public else Internal;
            var y := if b then Internal else Public;
            var p := Then(Expose(x), Then(Address(x), Then(Expose(y), Then(Address(y), rest))));
            && GateFree(p)
            && (AllAnswered(o, p) <==>
                  && Fine(o.reply(Expose(Internal))) && o.reply(Address(Internal)).err.Nil?
                  && Fine(o.reply(Expose(Public))) && o.reply(Address(Public)).err.Nil?
                  && AllAnswered(o, rest))
  {
    hide AllAnswered, GateFree;
    var x := if b then Public else Internal;
    var y := if b then Internal else Public;
    var p := rest;
    Unroll(o, Address(y), p); p := Then(Address(y), p);
    Unroll(o, Expose(y), p); p := Then(Expose(y), p);
    Unroll(o, Address(x), p); p := Then(Address(x), p);
    Unroll(o, Expose(x), p);
  }

  lemma NormalAsks(o: Oracle, b: bool)
    ensures AllAnswered(o, NormalAodh(b, End)) <==>
              && Answered(o, DefineWorkload) && Answered(o, Deploy) && Answered(o, OwnWorkload)
              && Fine(o.reply(Expose(Internal))) && o.reply(Address(Internal)).err.Nil?
              && Fine(o.reply(Expose(Public))) && o.reply(Address(Public)).err.Nil?
              && Answered(o, Publish) && Answered(o, Register(KeystoneEndpoint))
    ensures GateFree(NormalAodh(b, End))
  {
    assert AllAnswered(o, End) && GateFree(End);
    hide AllAnswered, GateFree, Answered, Fine;
    var x := if b then Public else Internal;
    var y := if b then Internal else Public;
    var p := End;
    Unroll(o, Register(KeystoneEndpoint), p); p := Then(Register(KeystoneEndpoint), p);
    Unroll(o, Publish, p); p := Then(Publish, p);
    ExposedAnswered(o, b, p); p := Then(Expose(x), Then(Address(x), Then(Expose(y), Then(Address(y), p))));
    Unroll(o, OwnWorkload, p); p := Then(OwnWorkload, p);
    Unroll(o, Deploy, p); p := Then(Deploy, p);
    Unroll(o, DefineWorkload, p);
  }

  lemma InitAsks(o: Oracle, rest: Program)
    requires GateFree(rest)
    ensures AllAnswered(o, InitAodh(rest)) <==>
              && Answered(o, InitSecret) && Answered(o, Register(KeystoneService)) && Answered(o, CreateDatabase)
              && Answered(o, AwaitDatabase) && Answered(o, SyncDatabase) && AllAnswered(o, rest)
    ensures GateFree(InitAodh(rest))
  {
    hide AllAnswered, GateFree, Answered;
    var p := rest;
    Unroll(o, SyncDatabase, p); p := Then(SyncDatabase, p);
    Unroll(o, AwaitDatabase, p); p := Then(AwaitDatabase, p);
    Unroll(o, CreateDatabase, p); p := Then(CreateDatabase, p);
    Unroll(o, Register(KeystoneService), p); p := Then(Register(KeystoneService), p);
    Unroll(o, InitSecret, p);
  }

  lemma ServiceAnswered(o: Oracle, b: bool)
    ensures AllAnswered(o, InitAodh(NormalAodh(b, End))) <==> AodhServed(o)
    ensures GateFree(InitAodh(NormalAodh(b, End)))
  {
    hide AllAnswered, GateFree, InitAodh, NormalAodh;
    NormalAsks(o, b);
    InitAsks(o, NormalAodh(b, End));
  }

  /** An Autoscaling pass reaches the gate exactly when everything it needs was found and
      memcached and heat are ready. */
  lemma ReachesAodhGate(k: Reconciler, o: Oracle, s: Store, cr: Resource)
    ensures ToAodhGate(k, o, s, cr).Next? <==> AodhInputsFound(o)
  {
    hide Run, AllAnswered, GateFree, AodhInputsFound, PrepareAutoscaling;
    PrepareAnswered(o);
    RunAnswered(k, o, PrepareAutoscaling(End), Begin(s, cr));
  }

  /** The gate lets an Autoscaling pass on. */
  predicate AodhGateOpens(k: Reconciler, o: Oracle, cr: Resource) {
    && o.reply(Gate).err.Nil?
    && Lookup(cr.status.hash, InputHash) == AodhGoal(k, o, cr.spec, cr.status.databaseHostname)
  }

  lemma PastAodhGate(k: Reconciler, o: Oracle, s: Store, cr: Resource)
    requires AodhInputsFound(o)
    ensures ToAodhGate(k, o, s, cr).Next?
    ensures Step(k, o, Gate, ToAodhGate(k, o, s, cr).local).Next? <==> AodhGateOpens(k, o, cr)
  {
    hide ToAodhGate, AodhInputsFound, AodhVars;
    ReachesAodhGate(k, o, s, cr);
    AodhGateVars(k, o, s, cr);
  }

  lemma AodhRunCompletes(k: Reconciler, o: Oracle, b: bool, s: Store, cr: Resource)
    ensures Run(k, o, AutoscalingProgram(b), Begin(s, cr)).Next? <==>
              AodhInputsFound(o) && AodhGateOpens(k, o, cr) && AodhServed(o)
  {
    hide AutoscalingProgram, ToAodhGate, AodhInputsFound, AodhGateOpens, AodhServed, AllAnswered, GateFree;
    hide InitAodh, NormalAodh, Judge;
    AutoscalingViaGate(k, o, b, s, cr);
    ReachesAodhGate(k, o, s, cr);
    if AodhInputsFound(o) {
      PastAodhGate(k, o, s, cr);
      var f := Step(k, o, Gate, ToAodhGate(k, o, s, cr).local);
      ServiceAnswered(o, b);
      RunAnswered(k, o, InitAodh(NormalAodh(b, End)), f.local);
    }
  }

  lemma DeleteAsks(o: Oracle)
    ensures AllAnswered(o, DeleteAodh()) <==>
              && Answered(o, ReleaseFinalizer(Database)) && Answered(o, ReleaseFinalizer(KeystoneService))
              && Answered(o, ReleaseFinalizer(KeystoneEndpoint)) && Answered(o, DropFinalizer)
    ensures GateFree(DeleteAodh())
  {
    assert AllAnswered(o, End) && GateFree(End);
    hide AllAnswered, GateFree, Answered;
    var p := End;
    Unroll(o, DropFinalizer, p); p := Then(DropFinalizer, p);
    Unroll(o, ReleaseFinalizer(KeystoneEndpoint), p); p := Then(ReleaseFinalizer(KeystoneEndpoint), p);
    Unroll(o, ReleaseFinalizer(KeystoneService), p); p := Then(ReleaseFinalizer(KeystoneService), p);
    Unroll(o, ReleaseFinalizer(Database), p);
  }

  /** No call to let go of a dependent fails; a missing one is no failure. */
  predicate AllReleased(o: Oracle) {
    && !o.reply(ReleaseFinalizer(Database)).err.Other?
    && !o.reply(ReleaseFinalizer(KeystoneService)).err.Other?
    && !o.reply(ReleaseFinalizer(KeystoneEndpoint)).err.Other?
  }

  lemma AodhDeleteCompletes(k: Reconciler, o: Oracle, l: Local)
    ensures Run(k, o, DeleteAodh(), l).Next? <==> AllReleased(o)
  {
    hide AllAnswered, GateFree, Run, DeleteAodh;
    DeleteAsks(o);
    RunAnswered(k, o, DeleteAodh(), l);
  }

  /** Exactly when an Autoscaling pass completes, whoever acts in its middle. */
  lemma AutoscalingCompletesExactly(namespace: string, objectHash: map<Var, string> -> string, o: Oracle, s: Store)
    requires Pass(Autoscaling(namespace, objectHash), o, s).2.Some?
    ensures var k := Autoscaling(namespace, objectHash);
            var cr := Acts(s, o.env(Fetch)).cr.value;
            Pass(k, o, s).2.value.completed <==>
              && cr.status.conditions.Some?
              && if cr.meta.deleting then AllReleased(o)
                 else cr.meta.ours && AodhInputsFound(o) && AodhGateOpens(k, o, cr) && AodhServed(o)
  {
    hide Acts, Run, AutoscalingProgram, DeleteAodh, AodhInputsFound, AodhGateOpens, AodhServed, Patched, PatchFails;
    var k := Autoscaling(namespace, objectHash);
    var s1 := Acts(s, o.env(Fetch));
    AodhRunCompletes(k, o, o.publicFirst, s1, s1.cr.value);
    AodhDeleteCompletes(k, o, Begin(s1, s1.cr.value));
  }
}
