/** Convergence of Ceilometer, whose configuration depends on nothing that is
    learned behind the gate: two calm passes suffice. */
module CeilometerConvergence {
  import opened Conditions
  import opened Cluster
  import opened Stages
  import opened Programs
  import opened Convergence

  function CeilometerVars(o: Oracle, spec: Spec, st: Status): map<Var, string> {
    var input := RenderInputOf(st.(transportURLSecret := o.transportSecret));
    map[][SecretVar(spec.secret) := o.secretHash(spec.secret)]
         [SecretVar(o.transportSecret) := o.secretHash(o.transportSecret)]
         [ScriptsVar(CeilometerCentral) := o.scripts(CeilometerCentral)]
         [ConfigVar(CeilometerCentral) := o.config(CeilometerCentral, input)]
         [ScriptsVar(CeilometerCompute) := o.scripts(CeilometerCompute)]
         [ConfigVar(CeilometerCompute) := o.config(CeilometerCompute, input)]
  }

  function CeilometerGoal(k: Reconciler, o: Oracle, cr: Resource): string {
    k.objectHash(CeilometerVars(o, cr.spec, cr.status))
  }

  /** The stages in front of the gate. */
  lemma CalmPrepareCeilometer(k: Reconciler, o: Oracle, rest: Program, l: Local) returns (m: Memo)
    requires Calm(o) && l.memo.vars == map[]
    ensures Run(k, o, PrepareCeilometer(rest), l) == Run(k, o, rest, l.(memo := m))
    ensures m.status == l.memo.status.(conditions := m.status.conditions, transportURLSecret := o.transportSecret)
    ensures m.status.conditions.Some? && m.vars == CeilometerVars(o, l.spec, l.memo.status)
  {
    hide Run, PrepareCeilometer;
    var p := Then(Render(CeilometerCentral), Then(Render(CeilometerCompute), rest));
    m := CalmSecrets(k, o, p, l);
    var l5 := l.(memo := m);
    CalmStep(k, o, Render(CeilometerCentral), p.tail, l5);
    var l6 := l5.(memo := Judge(k, o, Render(CeilometerCentral), l.spec, m).memo);
    CalmStep(k, o, Render(CeilometerCompute), rest, l6);
    m := Judge(k, o, Render(CeilometerCompute), l.spec, l6.memo).memo;
    PrepareShape(rest);
  }

  lemma PrepareShape(rest: Program)
    ensures PrepareCeilometer(rest) ==
            Then(Rbac, Then(Transport, Then(ReadSecret(FromSpec), Then(ReadSecret(FromTransport),
            Then(MarkDone(InputReady), Then(Render(CeilometerCentral), Then(Render(CeilometerCompute), rest)))))))
  {
  }

  lemma CalmSecrets(k: Reconciler, o: Oracle, rest: Program, l: Local) returns (m: Memo)
    requires Calm(o) && l.memo.vars == map[]
    ensures Run(k, o, Then(Rbac, Then(Transport, Then(ReadSecret(FromSpec), Then(ReadSecret(FromTransport),
                      Then(MarkDone(InputReady), rest))))), l)
            == Run(k, o, rest, l.(memo := m))
    ensures m.status == l.memo.status.(conditions := m.status.conditions, transportURLSecret := o.transportSecret)
    ensures m.status.conditions.Some?
    ensures m.vars == map[][SecretVar(l.spec.secret) := o.secretHash(l.spec.secret)]
                           [SecretVar(o.transportSecret) := o.secretHash(o.transportSecret)]
  {
    hide Run;
    var p4 := Then(MarkDone(InputReady), rest);
    var p3 := Then(ReadSecret(FromTransport), p4);
    var p2 := Then(ReadSecret(FromSpec), p3);
    CalmStep(k, o, Rbac, Then(Transport, p2), l);
    var l1 := l.(memo := Judge(k, o, Rbac, l.spec, l.memo).memo);
    CalmStep(k, o, Transport, p2, l1);
    var l2 := l.(memo := Judge(k, o, Transport, l.spec, l1.memo).memo);
    CalmStep(k, o, ReadSecret(FromSpec), p3, l2);
    var l3 := l.(memo := Judge(k, o, ReadSecret(FromSpec), l.spec, l2.memo).memo);
    CalmStep(k, o, ReadSecret(FromTransport), p4, l3);
    var l4 := l.(memo := Judge(k, o, ReadSecret(FromTransport), l.spec, l3.memo).memo);
    CalmStep(k, o, MarkDone(InputReady), rest, l4);
    m := Judge(k, o, MarkDone(InputReady), l.spec, l4.memo).memo;
  }

  /** The stages behind the gate. */
  lemma CalmServe(k: Reconciler, o: Oracle, l: Local) returns (m: Memo)
    requires Calm(o) && l.memo.status.conditions.Some?
    ensures Run(k, o, ServeCeilometer(End), l) ==
            Next(l.(store := Acquire(l.store, KeystoneService).(workload := Some(l.memo.inputHash)), memo := m))
    ensures m.status.conditions.Some?
    ensures m.status == l.memo.status.(conditions := m.status.conditions, readyCount := o.replicas)
  {
    hide Run, Acquire;
    var p5 := Then(ScrapeService, End);
    var p3 := Then(DefineWorkload, Then(Deploy, Then(OwnWorkload, p5)));
    var p1 := Then(InitSecret, Then(Register(KeystoneService), p3));
    CalmStep(k, o, MarkDone(ServiceConfigReady), p1, l);
    var l1 := l.(memo := Judge(k, o, MarkDone(ServiceConfigReady), l.spec, l.memo).memo);
    m := CalmKeystone(k, o, p3, l1);
    var l2 := l1.(store := Acquire(l.store, KeystoneService), memo := m);
    m := CalmDeploy(k, o, p5, l2);
    var l3 := l2.(store := l2.store.(workload := Some(l.memo.inputHash)), memo := m);
    CalmScrape(k, o, l3);
  }

  lemma CalmScrape(k: Reconciler, o: Oracle, l: Local)
    requires Calm(o)
    ensures Run(k, o, Then(ScrapeService, End), l) == Next(l)
  {
  }

  /** The conditions that a completed Ceilometer run has written. */
  function CeilometerTouched(o: Oracle): Conds {
    RbacPart(o.rbac)
    + (map[RabbitMqTransportURLReady := True] + (map[InputReady := True] + (map[ServiceConfigReady := True]
    + (Writes(o, Register(KeystoneService)) + (Writes(o, OwnWorkload) + map[])))))
  }

  lemma CeilometerProgramTouched(o: Oracle)
    ensures Touched(o, CeilometerProgram()) == CeilometerTouched(o)
  {
    assert Touched(o, End) == map[];
    hide Touched, PrepareCeilometer, ServeCeilometer;
    ServeTouched(o);
    var p := ServeCeilometer(End);
    GateQuiet(o, p); p := Then(Gate, p);
    PrepareTouched(o, p);
  }

  lemma ServeTouched(o: Oracle)
    ensures Touched(o, ServeCeilometer(End)) ==
            map[ServiceConfigReady := True]
            + (Writes(o, Register(KeystoneService)) + (Writes(o, OwnWorkload) + Touched(o, End)))
  {
    hide Touched;
    var p := End;
    Quiet(o, ScrapeService, p); p := Then(ScrapeService, p);
    DeployTouched(o, p); p := Then(DefineWorkload, Then(Deploy, Then(OwnWorkload, p)));
    Writing(o, Register(KeystoneService), p); p := Then(Register(KeystoneService), p);
    Quiet(o, InitSecret, p); p := Then(InitSecret, p);
    Writing(o, MarkDone(ServiceConfigReady), p);
  }

  lemma PrepareTouched(o: Oracle, rest: Program)
    ensures Touched(o, PrepareCeilometer(rest)) ==
            RbacPart(o.rbac) + (map[RabbitMqTransportURLReady := True] + (map[InputReady := True] + Touched(o, rest)))
  {
    hide Touched;
    var p := rest;
    Quiet(o, Render(CeilometerCompute), p); p := Then(Render(CeilometerCompute), p);
    Quiet(o, Render(CeilometerCentral), p); p := Then(Render(CeilometerCentral), p);
    Writing(o, MarkDone(InputReady), p); p := Then(MarkDone(InputReady), p);
    Quiet(o, ReadSecret(FromTransport), p); p := Then(ReadSecret(FromTransport), p);
    Quiet(o, ReadSecret(FromSpec), p); p := Then(ReadSecret(FromSpec), p);
    Writing(o, Transport, p); p := Then(Transport, p);
    Writing(o, Rbac, p);
  }

  /** The whole status after a calm pass that the gate let through. */
  function CeilometerFinal(o: Oracle, cr: Resource, h: string): Status
    requires cr.status.conditions.Some?
  {
    cr.status.(conditions := Some(WithReady(cr.status.conditions.value + CeilometerTouched(o))),
               hash := cr.status.hash[InputHash := h], transportURLSecret := o.transportSecret,
               readyCount := o.replicas)
  }

  function CeilometerStore(s: Store, h: string): Store {
    Acquire(s, KeystoneService).(workload := Some(h))
  }

  lemma CalmCeilometerRun(k: Reconciler, o: Oracle, s: Store, cr: Resource)
    requires Calm(o) && cr.status.conditions.Some?
    ensures var h := CeilometerGoal(k, o, cr);
            var f := Run(k, o, CeilometerProgram(), Begin(s, cr));
            var r := f.local;
            && r.meta == cr.meta && r.memo.status.conditions.Some?
            && if Lookup(cr.status.hash, InputHash) != h
               then f.Stop? && f.result == DONE && r.store == s
                    && r.memo.status == cr.status.(conditions := r.memo.status.conditions,
                         transportURLSecret := o.transportSecret, hash := cr.status.hash[InputHash := h])
               else f.Next? && r.store == CeilometerStore(s, h)
                    && Refreshed(o, r.memo.status) == CeilometerFinal(o, cr, h)
  {
    hide CeilometerGoal, CeilometerTouched, WithReady;
    var l := Begin(s, cr);
    var m := CalmPrepareCeilometer(k, o, Then(Gate, ServeCeilometer(End)), l);
    var l1 := l.(memo := m);
    var h := CeilometerGoal(k, o, cr);
    GoalOf(k, o, cr);
    if Lookup(cr.status.hash, InputHash) == h {
      CalmStep(k, o, Gate, ServeCeilometer(End), l1);
      var l2 := l1.(memo := Judge(k, o, Gate, l.spec, m).memo);
      var m3 := CalmServe(k, o, l2);
      RunWrites(k, o, CeilometerProgram(), l);
      CeilometerProgramTouched(o);
    } else {
      assert Acts(s, o.env(Gate)) == s;
    }
  }

  lemma GoalOf(k: Reconciler, o: Oracle, cr: Resource)
    ensures CeilometerGoal(k, o, cr) == k.objectHash(CeilometerVars(o, cr.spec, cr.status))
  {
  }

  /** A calm Ceilometer pass on a settled resource, closed form. */
  lemma CalmCeilometerPass(k: Reconciler, o: Oracle, s: Store)
    requires Calm(o) && Settled(s) && Normal(k, o.publicFirst) == CeilometerProgram()
    ensures var cr := s.cr.value;
            var h := CeilometerGoal(k, o, cr);
            var r := Reconcile(k, o, s);
            && Settled(r) && r.cr.value.spec == cr.spec && CeilometerGoal(k, o, r.cr.value) == h
            && if Lookup(cr.status.hash, InputHash) != h
               then Recorded(r, h) && r.workload == s.workload
               else r == CeilometerStore(s, h).(cr := Some(cr.(status := CeilometerFinal(o, cr, h))))
  {
    hide CeilometerTouched, Run;
    var cr := s.cr.value;
    CalmCeilometerRun(k, o, s, cr);
    CalmFinish(k, o, s, Run(k, o, Normal(k, o.publicFirst), Begin(s, cr)));
  }

  /** The resource and the workload agree on the configuration. */
  predicate CeilometerConvergedTo(k: Reconciler, o: Oracle, s: Store) {
    && Settled(s)
    && var goal := CeilometerGoal(k, o, s.cr.value);
       Recorded(s, goal) && s.workload == Some(goal)
  }

  ghost predicate CalmCeilometerPasses(os: seq<Oracle>, o: Oracle) {
    forall i :: 0 <= i < |os| ==> Calm(os[i]) && SameHashed(os[i], o)
  }

  lemma SameCeilometerGoal(k: Reconciler, x: Oracle, o: Oracle, cr: Resource)
    requires SameHashed(x, o)
    ensures CeilometerGoal(k, x, cr) == CeilometerGoal(k, o, cr)
  {
  }

  /** One pass of a run, as seen by the gate. */
  lemma CeilometerTurn(k: Reconciler, o: Oracle, x: Oracle, s: Store) returns (r: Store)
    requires Calm(x) && SameHashed(x, o) && Settled(s) && Normal(k, x.publicFirst) == CeilometerProgram()
    ensures r == Reconcile(k, x, s)
    ensures var goal := CeilometerGoal(k, o, s.cr.value);
            && Settled(r) && CeilometerGoal(k, o, r.cr.value) == goal && Recorded(r, goal)
            && r.workload == if Recorded(s, goal) then Some(goal) else s.workload
  {
    hide Reconcile, CeilometerGoal, CeilometerFinal, CeilometerStore, CeilometerProgram, Normal;
    r := Reconcile(k, x, s);
    CalmCeilometerPass(k, x, s);
    SameCeilometerGoal(k, x, o, s.cr.value);
    SameCeilometerGoal(k, x, o, r.cr.value);
    ServedFacts(x, s, s.cr.value, CeilometerGoal(k, x, s.cr.value));
  }

  lemma {:induction false} CeilometerTurns(k: Reconciler, o: Oracle, s: Store, os: seq<Oracle>)
    requires Settled(s) && os != [] && CalmCeilometerPasses(os, o)
    requires forall b: bool :: Normal(k, b) == CeilometerProgram()
    ensures var goal := CeilometerGoal(k, o, s.cr.value);
            var r := Turns(k, os, s);
            && Settled(r) && CeilometerGoal(k, o, r.cr.value) == goal && Recorded(r, goal)
            && r.workload == if |os| > 1 || Recorded(s, goal) then Some(goal) else s.workload
    decreases |os|
  {
    hide Reconcile, CeilometerGoal, CeilometerProgram, Normal, Calm, SameHashed;
    var n := |os| - 1;
    if n == 0 {
      assert Turns(k, os[..0], s) == s;
      var r := CeilometerTurn(k, o, os[0], s);
    } else {
      CeilometerTurns(k, o, s, os[..n]);
      var r := CeilometerTurn(k, o, os[n], Turns(k, os[..n], s));
    }
  }

  /** Two or more calm passes that agree on what is hashed converge, and the next one with
      the same answers is a no-op. One pass converges exactly when the hash was already
      recorded or already deployed. */
  lemma CeilometerConverges(
    namespace: string, objectHash: map<Var, string> -> string, o: Oracle, s: Store, os: seq<Oracle>)
    requires Settled(s) && |os| >= 2 && CalmCeilometerPasses(os, o)
    ensures var k := Ceilometer(namespace, objectHash);
            var goal := CeilometerGoal(k, o, s.cr.value);
            var r := Turns(k, os, s);
            && CeilometerConvergedTo(k, o, r) && r.workload == Some(goal)
            && Reconcile(k, os[|os| - 1], r) == r
            && (CeilometerConvergedTo(k, o, Turns(k, os[..1], s)) <==> Recorded(s, goal) || s.workload == Some(goal))
  {
    hide Reconcile, CeilometerGoal, CeilometerProgram, DeleteCeilometer, Calm, SameHashed;
    var k := Ceilometer(namespace, objectHash);
    var n := |os| - 1;
    CeilometerTurns(k, o, s, os);
    CeilometerTurns(k, o, s, os[..1]);
    CeilometerTurns(k, o, s, os[..n]);
    var before := Turns(k, os[..n], s);
    SameCeilometerGoal(k, os[n], o, before.cr.value);
    CompletedStaysPut(k, os[n], before);
  }

  /** And every further calm pass that agrees on what is hashed keeps it so. */
  lemma CeilometerStaysConverged(
    namespace: string, objectHash: map<Var, string> -> string, o: Oracle, s: Store, os: seq<Oracle>)
    requires CalmCeilometerPasses(os, o) && CeilometerConvergedTo(Ceilometer(namespace, objectHash), o, s)
    ensures var k := Ceilometer(namespace, objectHash); CeilometerConvergedTo(k, o, Turns(k, os, s))
  {
    if os != [] {
      hide Reconcile, CeilometerGoal, CeilometerProgram, DeleteCeilometer, Calm, SameHashed, Turns;
      CeilometerTurns(Ceilometer(namespace, objectHash), o, s, os);
    }
  }

  /** Two calm passes settle any resource that is not marked for deletion. */
  lemma TwoPassesSettle(k: Reconciler, o: Oracle, s: Store, os: seq<Oracle>)
    requires Alive(s) && |os| == 2 && CalmCeilometerPasses(os, o)
    requires forall b: bool :: Normal(k, b) == CeilometerProgram()
    ensures Settled(Turns(k, os, s))
  {
    hide Reconcile, CeilometerGoal, CeilometerProgram, Normal, Calm, SameHashed;
    assert os[..1][..0] == [] && os[..1][0] == os[0];
    assert Turns(k, os[..1], s) == Reconcile(k, os[0], s);
    if Settled(s) {
      CeilometerTurns(k, o, s, os);
    } else {
      InitPass(k, os[0], s);
      var s1 := Reconcile(k, os[0], s);
      if Settled(s1) {
        var r := CeilometerTurn(k, o, os[1], s1);
      } else {
        InitPass(k, os[1], s1);
      }
    }
  }

  /** Bring-up: from any resource not marked for deletion, a new one included, four or more
      calm passes that agree on what is hashed converge. */
  lemma CeilometerBringUp(
    namespace: string, objectHash: map<Var, string> -> string, o: Oracle, s: Store, os: seq<Oracle>)
    requires Alive(s) && |os| >= 4 && CalmCeilometerPasses(os, o)
    ensures var k := Ceilometer(namespace, objectHash); CeilometerConvergedTo(k, o, Turns(k, os, s))
  {
    hide Reconcile, CeilometerGoal, CeilometerProgram, DeleteCeilometer, Calm, SameHashed, Turns;
    var k := Ceilometer(namespace, objectHash);
    TwoPassesSettle(k, o, s, os[..2]);
    TurnsSplit(k, os, 2, s);
    CeilometerConverges(namespace, objectHash, o, Turns(k, os[..2], s), os[2..]);
  }

  /** A calm pass over an open gate deploys the goal, and another changes nothing. */
  lemma CompletedStaysPut(k: Reconciler, o: Oracle, s: Store)
    requires Calm(o) && Settled(s) && Normal(k, o.publicFirst) == CeilometerProgram()
    requires Recorded(s, CeilometerGoal(k, o, s.cr.value))
    ensures var r := Reconcile(k, o, s);
            && CeilometerConvergedTo(k, o, r) && Reconcile(k, o, r) == r
            && CeilometerGoal(k, o, r.cr.value) == CeilometerGoal(k, o, s.cr.value)
  {
    hide Reconcile, CeilometerGoal, CeilometerProgram, CeilometerFinal, CeilometerStore;
    var cr := s.cr.value;
    var h := CeilometerGoal(k, o, cr);
    CalmCeilometerPass(k, o, s);
    var r := Reconcile(k, o, s);
    ServedFacts(o, s, cr, h);
    CalmCeilometerPass(k, o, r);
    FinalAgain(o, cr, h);
    StoreAgain(s, h, r.cr);
  }

  lemma ServedFacts(o: Oracle, s: Store, cr: Resource, h: string)
    requires cr.status.conditions.Some?
    ensures CeilometerStore(s, h).workload == Some(h)
    ensures Lookup(CeilometerFinal(o, cr, h).hash, InputHash) == h && CeilometerFinal(o, cr, h).conditions.Some?
  {
  }

  lemma FinalAgain(o: Oracle, cr: Resource, h: string)
    requires cr.status.conditions.Some?
    ensures var done := cr.(status := CeilometerFinal(o, cr, h));
            done.status.conditions.Some? && CeilometerFinal(o, done, h) == CeilometerFinal(o, cr, h)
  {
    hide CeilometerTouched, WithReady;
    TouchedSparesReady(o);
    ReadyIdempotent(cr.status.conditions.value, CeilometerTouched(o));
    var hash := cr.status.hash[InputHash := h];
    assert hash[InputHash := h] == hash;
  }

  lemma TouchedSparesReady(o: Oracle)
    ensures Ready !in CeilometerTouched(o)
  {
    hide Writes, RbacPart;
    RbacSparesReady(o);
    WritesSpareReady(o, Register(KeystoneService));
    WritesSpareReady(o, OwnWorkload);
  }

  lemma WritesSpareReady(o: Oracle, st: Stage)
    requires st.Register? || st.OwnWorkload?
    ensures Ready !in Writes(o, st)
  {
  }

  lemma RbacSparesReady(o: Oracle)
    ensures Ready !in RbacPart(o.rbac)
  {
  }

  lemma StoreAgain(s: Store, h: string, cr: Option<Resource>)
    ensures var r := CeilometerStore(s, h).(cr := cr); CeilometerStore(r, h) == r
  {
  }

  // ---------------------------------------------------------------- readiness

  const CEILOMETER_WRITTEN: set<Cond> := CEILOMETER_CONDS + {RabbitMqTransportURLReady}

  /** After a completed calm pass with healthy surroundings, Ceilometer is Ready
      exactly when every condition outside its own list was already True; its own
      list includes InputReady, so an earlier missing secret leaves no trace. */
  lemma CeilometerReadyAfterCalm(k: Reconciler, o: Oracle, s: Store)
    requires Calm(o) && Happy(o) && Settled(s) && Normal(k, o.publicFirst) == CeilometerProgram()
    requires Recorded(s, CeilometerGoal(k, o, s.cr.value))
    ensures var c := s.cr.value.status.conditions.value;
            var r := Reconcile(k, o, s);
            && r.cr.Some?
            && (IsTrue(r.cr.value.status.conditions, Ready) <==>
                forall t :: t in c && t !in CEILOMETER_WRITTEN && t != Ready ==> c[t] == True)
  {
    hide Reconcile, CeilometerTouched, CeilometerGoal, CeilometerProgram;
    CalmCeilometerPass(k, o, s);
    HappyCeilometer(o);
    ReadyOver(s.cr.value.status.conditions.value, CeilometerTouched(o), CEILOMETER_WRITTEN);
  }

  lemma HappyCeilometer(o: Oracle)
    requires Happy(o)
    ensures TrueOn(CeilometerTouched(o), CEILOMETER_WRITTEN)
  {
    hide Writes, RbacPart, Happy;
    var w := Writes(o, Register(KeystoneService)) + (Writes(o, OwnWorkload) + map[]);
    var ks := {DeploymentReady, KeystoneServiceReady};
    HappyServed(o);
    var v := map[RabbitMqTransportURLReady := True] + (map[InputReady := True] + (map[ServiceConfigReady := True] + w));
    TrueOnUnion(ServiceConfigReady, map[ServiceConfigReady := True], w, ks);
    TrueOnUnion(InputReady, map[InputReady := True], map[ServiceConfigReady := True] + w, ks + {ServiceConfigReady});
    TrueOnUnion(RabbitMqTransportURLReady, map[RabbitMqTransportURLReady := True],
                map[InputReady := True] + (map[ServiceConfigReady := True] + w),
                ks + {ServiceConfigReady} + {InputReady});
    HappyRbacOver(o, v, ks + {ServiceConfigReady} + {InputReady} + {RabbitMqTransportURLReady});
    assert ks + {ServiceConfigReady} + {InputReady} + {RabbitMqTransportURLReady} + RBAC == CEILOMETER_WRITTEN;
  }

  lemma HappyServed(o: Oracle)
    requires Happy(o)
    ensures TrueOn(Writes(o, Register(KeystoneService)) + (Writes(o, OwnWorkload) + map[]),
                   {DeploymentReady, KeystoneServiceReady})
  {
  }

  lemma HappyRbacOver(o: Oracle, w: Conds, keys: set<Cond>)
    requires Happy(o) && TrueOn(w, keys)
    ensures TrueOn(RbacPart(o.rbac) + w, keys + RBAC)
  {
  }
}
