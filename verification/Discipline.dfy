/** The order in which a pass marks its conditions. */
module Discipline {
  import opened Conditions
  import opened Cluster
  import opened Stages
  import opened Safety
  import opened Programs

  /** The condition writes of a stage that goes through: what it marks, it marks True. */
  function TrueMarks(o: Oracle, st: Stage): seq<Mark> {
    match st
    case Rbac => [RbacSet(RbacPart(o.rbac))]
    case Register(d) => if o.mirror(d).Some? then [Mirrored(RegisterCond(d), o.mirror(d).value)] else []
    case MarkDone(c) => [Mark(c, True)]
    case Require(c) => [Mark(c, True)]
    case Transport => [Mark(RabbitMqTransportURLReady, True)]
    case AwaitDatabase => [Mark(DBReady, True)]
    case SyncDatabase => [Mark(DBSyncReady, True)]
    case OwnWorkload => if o.replicas > 0 then [Mark(DeploymentReady, True)] else []
    case Publish => [Mark(ExposeServiceReady, True)]
    case _ => []
  }

  /** The condition write of a stage that stops the pass, if any: what it marks, it
      marks False. */
  function FalseMarks(o: Oracle, st: Stage): seq<Mark> {
    match st
    case Rbac => [RbacSet(RbacPart(o.rbac))]
    case Register(d) =>
      if o.reply(st).err.Nil? && o.mirror(d).Some? then [Mirrored(RegisterCond(d), o.mirror(d).value)] else []
    case Transport => [Mark(RabbitMqTransportURLReady, False)]
    case ReadSecret(_) => [Mark(InputReady, False)]
    case Require(c) => [Mark(c, False)]
    case Render(_) => [Mark(ServiceConfigReady, False)]
    case Gate => if o.reply(Gate).err.Nil? then [] else [Mark(ServiceConfigReady, False)]
    case CreateDatabase | AwaitDatabase => [Mark(DBReady, False)]
    case SyncDatabase => [Mark(DBSyncReady, False)]
    case Deploy => [Mark(DeploymentReady, False)]
    case Expose(_) => [Mark(ExposeServiceReady, False)]
    case _ => []
  }

  function Length(p: Program): nat {
    if p.End? then 0 else 1 + Length(p.tail)
  }

  function Take(p: Program, n: nat): Program {
    if p.End? || n == 0 then End else Then(p.head, Take(p.tail, n - 1))
  }

  function StageAt(p: Program, n: nat): Stage
    requires n < Length(p)
  {
    if n == 0 then p.head else StageAt(p.tail, n - 1)
  }

  /** All the writes of a program that goes through, in order. */
  function Trues(o: Oracle, p: Program): seq<Mark> {
    match p
    case End => []
    case Then(st, rest) => TrueMarks(o, st) + Trues(o, rest)
  }

  lemma {:induction false} TakePrefix(o: Oracle, p: Program, n: nat)
    ensures Trues(o, Take(p, n)) <= Trues(o, p)
    decreases p
  {
    if p.Then? && n > 0 { TakePrefix(o, p.tail, n - 1); }
  }

  /** The last mark of a stopped pass is still in force at its end. */
  predicate InForce(m: Memo, marks: seq<Mark>) {
    marks != [] && marks[0].Mark? ==>
      && m.status.conditions.Some? && marks[0].cond in m.status.conditions.value
      && m.status.conditions.value[marks[0].cond] == marks[0].status
  }

  lemma JudgeInputMarks(k: Reconciler, o: Oracle, st: Stage, spec: Spec, m: Memo)
    requires BeforeGate(st)
    ensures var v := JudgeInput(k, o, st, spec, m);
            && (v.Go? ==> v.memo.marks == m.marks + TrueMarks(o, st))
            && (v.Halt? ==> v.memo.marks == m.marks + FalseMarks(o, st) && InForce(v.memo, FalseMarks(o, st)))
  {
  }

  lemma JudgeInitMarks(k: Reconciler, o: Oracle, st: Stage, m: Memo)
    requires InInit(st)
    ensures var v := JudgeInit(k, o, st, m);
            && (v.Go? ==> v.memo.marks == m.marks + TrueMarks(o, st))
            && (v.Halt? ==> v.memo.marks == m.marks + FalseMarks(o, st) && InForce(v.memo, FalseMarks(o, st)))
  {
  }

  lemma JudgeDeployMarks(k: Reconciler, o: Oracle, st: Stage, m: Memo)
    requires !BeforeGate(st) && !InInit(st)
    ensures var v := JudgeDeploy(k, o, st, m);
            && (v.Go? ==> v.memo.marks == m.marks + TrueMarks(o, st))
            && (v.Halt? ==> v.memo.marks == m.marks + FalseMarks(o, st) && InForce(v.memo, FalseMarks(o, st)))
  {
  }

  lemma JudgeMarks(k: Reconciler, o: Oracle, st: Stage, spec: Spec, m: Memo)
    ensures var v := Judge(k, o, st, spec, m);
            && (v.Go? ==> v.memo.marks == m.marks + TrueMarks(o, st))
            && (v.Halt? ==> v.memo.marks == m.marks + FalseMarks(o, st) && InForce(v.memo, FalseMarks(o, st)))
  {
    hide JudgeInput, JudgeInit, JudgeDeploy, TrueMarks, FalseMarks, InForce;
    if BeforeGate(st) {
      JudgeInputMarks(k, o, st, spec, m);
    } else if InInit(st) {
      JudgeInitMarks(k, o, st, m);
    } else {
      JudgeDeployMarks(k, o, st, m);
    }
  }

  /** A run of a program goes through some number n of its stages. Its condition
      writes are those of the n stages, in their order, followed, when stage n stopped
      it, by the one write of that stage and nothing else. */
  lemma {:induction false} RunMarks(k: Reconciler, o: Oracle, p: Program, l: Local) returns (n: nat)
    requires NeverMarksTrue(p, Ready)
    ensures n <= Length(p)
    ensures var f := Run(k, o, p, l);
            f.Next? ==> n == Length(p) && f.local.memo.marks == l.memo.marks + Trues(o, p)
    ensures Run(k, o, p, l).Stop? ==> n < Length(p) && StoppedAt(o, p, n, l.memo.marks, Run(k, o, p, l).local.memo)
    decreases p
  {
    n := 0;
    if p.Then? {
      hide Judge, TrueMarks, FalseMarks, InForce, StoppedAt, NeverMarksTrue;
      JudgeMarks(k, o, p.head, l.spec, l.memo);
      NotMarkingReady(o, p);
      var f := Step(k, o, p.head, l);
      if f.Next? {
        var i := RunMarks(k, o, p.tail, f.local);
        n := i + 1;
        Assoc(l.memo.marks, TrueMarks(o, p.head), Trues(o, p.tail));
        if Run(k, o, p.tail, f.local).Stop? {
          StoppedLater(o, p, i, l.memo.marks, Run(k, o, p.tail, f.local).local.memo);
        }
      } else {
        StoppedNow(o, p, l.memo.marks, f.local.memo);
      }
    }
  }

  predicate SparesReady(marks: seq<Mark>) {
    marks != [] && marks[0].Mark? ==> marks[0].cond != Ready
  }

  lemma NotMarkingReady(o: Oracle, p: Program)
    requires p.Then? && NeverMarksTrue(p, Ready)
    ensures NeverMarksTrue(p.tail, Ready)
    ensures SparesReady(FalseMarks(o, p.head))
  {
  }

  lemma StoppedNow(o: Oracle, p: Program, start: seq<Mark>, m: Memo)
    requires p.Then? && m.marks == start + FalseMarks(o, p.head) && InForce(m, FalseMarks(o, p.head))
    requires SparesReady(FalseMarks(o, p.head))
    ensures StoppedAt(o, p, 0, start, m)
  {
  }

  lemma StoppedLater(o: Oracle, p: Program, i: nat, start: seq<Mark>, m: Memo)
    requires p.Then? && i < Length(p.tail) && StoppedAt(o, p.tail, i, start + TrueMarks(o, p.head), m)
    ensures StoppedAt(o, p, i + 1, start, m)
  {
  }

  /** The marks of a run that stage n stopped. */
  predicate StoppedAt(o: Oracle, p: Program, n: nat, start: seq<Mark>, m: Memo)
    requires n < Length(p)
  {
    var failed := FalseMarks(o, StageAt(p, n));
    && m.marks == start + Trues(o, Take(p, n)) + failed
    && InForce(m, failed)
    && SparesReady(failed)
  }

  lemma Assoc(a: seq<Mark>, b: seq<Mark>, c: seq<Mark>)
    ensures a + b + c == a + (b + c)
  {
  }

  /** The condition writes of an Autoscaling pass, in the only order they can appear. */
  function AutoscalingOrder(o: Oracle): seq<Mark> {
    [RbacSet(RbacPart(o.rbac))]
    + ([Mark(ServiceConfigReady, True)] + ([Mark(RabbitMqTransportURLReady, True)]
    + ([Mark(MemcachedReady, True)] + ([Mark(HeatReady, True)]
    + (MirrorOf(o, KeystoneService, KeystoneServiceReady)
    + ([Mark(DBReady, True)] + ([Mark(DBSyncReady, True)]
    + ((if o.replicas > 0 then [Mark(DeploymentReady, True)] else []) + ([Mark(ExposeServiceReady, True)]
    + (MirrorOf(o, KeystoneEndpoint, KeystoneEndpointReady) + []))))))))))
  }

  /** A condition that is mirrored from a dependent, if the dependent has one. */
  function MirrorOf(o: Oracle, d: Dependent, c: Cond): seq<Mark> {
    if o.mirror(d).Some? then [Mirrored(c, o.mirror(d).value)] else []
  }

  /** A stage that marks nothing True adds nothing. */
  lemma Silent(o: Oracle, st: Stage, rest: Program)
    requires TrueMarks(o, st) == []
    ensures Trues(o, Then(st, rest)) == Trues(o, rest)
  {
  }

  lemma Marking(o: Oracle, st: Stage, rest: Program)
    ensures Trues(o, Then(st, rest)) == TrueMarks(o, st) + Trues(o, rest)
  {
  }

  lemma NormalAodhTrues(o: Oracle, b: bool)
    ensures Trues(o, NormalAodh(b, End)) ==
            TrueMarks(o, OwnWorkload) + ([Mark(ExposeServiceReady, True)]
            + (TrueMarks(o, Register(KeystoneEndpoint)) + Trues(o, End)))
  {
    hide Trues;
    var x := if b then Public else Internal;
    var y := if b then Internal else Public;
    var p := End;
    Marking(o, Register(KeystoneEndpoint), p); p := Then(Register(KeystoneEndpoint), p);
    Marking(o, Publish, p); p := Then(Publish, p);
    Silent(o, Address(y), p); p := Then(Address(y), p);
    Silent(o, Expose(y), p); p := Then(Expose(y), p);
    Silent(o, Address(x), p); p := Then(Address(x), p);
    Silent(o, Expose(x), p); p := Then(Expose(x), p);
    Marking(o, OwnWorkload, p); p := Then(OwnWorkload, p);
    Silent(o, Deploy, p); p := Then(Deploy, p);
    Silent(o, DefineWorkload, p);
  }

  lemma InitAodhTrues(o: Oracle, rest: Program)
    ensures Trues(o, InitAodh(rest)) ==
            TrueMarks(o, Register(KeystoneService))
            + ([Mark(DBReady, True)] + ([Mark(DBSyncReady, True)] + Trues(o, rest)))
  {
    hide Trues;
    var p := rest;
    Marking(o, SyncDatabase, p); p := Then(SyncDatabase, p);
    Marking(o, AwaitDatabase, p); p := Then(AwaitDatabase, p);
    Silent(o, CreateDatabase, p); p := Then(CreateDatabase, p);
    Marking(o, Register(KeystoneService), p); p := Then(Register(KeystoneService), p);
    Silent(o, InitSecret, p);
  }

  lemma PrepareAutoscalingTrues(o: Oracle, rest: Program)
    ensures Trues(o, PrepareAutoscaling(rest)) ==
            TrueMarks(o, Rbac) + ([Mark(ServiceConfigReady, True)] + ([Mark(RabbitMqTransportURLReady, True)]
            + ([Mark(MemcachedReady, True)] + ([Mark(HeatReady, True)] + Trues(o, rest)))))
  {
    hide Trues;
    var p := rest;
    Silent(o, Render(Aodh), p); p := Then(Render(Aodh), p);
    Silent(o, Prometheus, p); p := Then(Prometheus, p);
    Silent(o, ReadSecret(FromTransport), p); p := Then(ReadSecret(FromTransport), p);
    Marking(o, Require(HeatReady), p); p := Then(Require(HeatReady), p);
    Marking(o, Require(MemcachedReady), p); p := Then(Require(MemcachedReady), p);
    Silent(o, ReadSecret(FromSpec), p); p := Then(ReadSecret(FromSpec), p);
    Marking(o, Transport, p); p := Then(Transport, p);
    Marking(o, MarkDone(ServiceConfigReady), p); p := Then(MarkDone(ServiceConfigReady), p);
    Marking(o, Rbac, p);
  }

  lemma AutoscalingTrues(o: Oracle, b: bool)
    ensures Trues(o, AutoscalingProgram(b)) == AutoscalingOrder(o)
  {
    assert Trues(o, End) == [];
    assert TrueMarks(o, Register(KeystoneService)) == MirrorOf(o, KeystoneService, KeystoneServiceReady);
    assert TrueMarks(o, Register(KeystoneEndpoint)) == MirrorOf(o, KeystoneEndpoint, KeystoneEndpointReady);
    hide Trues, NormalAodh, InitAodh, PrepareAutoscaling, MirrorOf;
    var p := NormalAodh(b, End);
    NormalAodhTrues(o, b);
    InitAodhTrues(o, p); p := InitAodh(p);
    GateSilent(o, p); p := Then(Gate, p);
    PrepareAutoscalingTrues(o, p);
  }

  lemma GateSilent(o: Oracle, rest: Program)
    ensures Trues(o, Then(Gate, rest)) == Trues(o, rest)
  {
  }

  /** Stage discipline of an Autoscaling pass: its condition writes, mirrored and RBAC
      ones included, are a prefix of the fixed order, in which every mark is True, and
      then at most one write of the stage that stopped it. A False mark can only be
      that last write, and after it the pass does not leave the resource Ready. */
  lemma AutoscalingStageDiscipline(namespace: string, objectHash: map<Var, string> -> string, o: Oracle, s: Store)
    returns (n: nat)
    requires Pass(Autoscaling(namespace, objectHash), o, s).2.Some?
    ensures var last := Pass(Autoscaling(namespace, objectHash), o, s).2.value.last.memo;
            && n <= |last.marks|
            && last.marks[..n] <= AutoscalingOrder(o)
            && (n < |last.marks| ==> n + 1 == |last.marks|)
            && (forall i :: 0 <= i < |last.marks| && last.marks[i].Mark? && last.marks[i].status == False ==>
                  i == n == |last.marks| - 1 && !IsTrue(last.status.conditions, Ready))
  {
    hide Acts, Body, AutoscalingProgram, AutoscalingOrder, IsTrue, Patched, PatchFails;
    var k := Autoscaling(namespace, objectHash);
    var s1 := Acts(s, o.env(Fetch));
    n := BodyDiscipline(k, o, s1, s1.cr.value);
  }

  lemma BodyDiscipline(k: Reconciler, o: Oracle, s: Store, cr: Resource) returns (n: nat)
    requires k == Autoscaling("", k.objectHash).(prometheusHost := k.prometheusHost)
    ensures var m := Body(k, o, s, cr).local.memo;
            && n <= |m.marks|
            && m.marks[..n] <= AutoscalingOrder(o)
            && (n < |m.marks| ==> n + 1 == |m.marks|)
            && (forall i :: 0 <= i < |m.marks| && m.marks[i].Mark? && m.marks[i].status == False ==>
                  i == n == |m.marks| - 1 && !IsTrue(Refreshed(o, m.status).conditions, Ready))
  {
    hide Run, Trues, NeverMarksTrue, AutoscalingProgram, AutoscalingOrder, DeleteAodh, Refreshed, IsTrue;
    n := 0;
    if !AddsFinalizer(cr) && cr.status.conditions.Some? {
      var p := ProgramOf(k, o, cr);
      ProgramOrder(k, o, cr);
      n := ProgramMarks(k, o, p, Begin(s, cr));
      TruesAreTrue(o, p);
      var m := Run(k, o, p, Begin(s, cr)).local.memo;
      assert forall i :: 0 <= i < n ==> m.marks[i] == m.marks[..n][i] == Trues(o, p)[i];
      if n < |m.marks| && m.marks[n].Mark? {
        NotReadyWith(o, m.status, m.marks[n].cond);
      }
    }
  }

  lemma ProgramOrder(k: Reconciler, o: Oracle, cr: Resource)
    requires k == Autoscaling("", k.objectHash).(prometheusHost := k.prometheusHost)
    ensures Trues(o, ProgramOf(k, o, cr)) <= AutoscalingOrder(o) && NeverMarksTrue(ProgramOf(k, o, cr), Ready)
  {
    hide Trues, NeverMarksTrue, AutoscalingProgram, AutoscalingOrder, DeleteAodh;
    if cr.meta.deleting {
      DeleteMarksNothing(o);
      DeleteAodhNeverMarks(Ready);
    } else {
      AutoscalingTrues(o, o.publicFirst);
      AutoscalingNeverMarks(o.publicFirst, Ready);
    }
  }

  lemma NotReadyWith(o: Oracle, st: Status, c: Cond)
    requires st.conditions.Some? && c in st.conditions.value && st.conditions.value[c] == False && c != Ready
    ensures !IsTrue(Refreshed(o, st).conditions, Ready)
  {
  }

  lemma DeleteMarksNothing(o: Oracle)
    ensures Trues(o, DeleteAodh()) == []
  {
    assert Trues(o, End) == [];
    hide Trues;
    var p := End;
    Silent(o, DropFinalizer, p); p := Then(DropFinalizer, p);
    Silent(o, ReleaseFinalizer(KeystoneEndpoint), p); p := Then(ReleaseFinalizer(KeystoneEndpoint), p);
    Silent(o, ReleaseFinalizer(KeystoneService), p); p := Then(ReleaseFinalizer(KeystoneService), p);
    Silent(o, ReleaseFinalizer(Database), p);
  }

  /** Every mark of a program that goes through is True. */
  lemma {:induction false} TruesAreTrue(o: Oracle, p: Program)
    ensures forall m :: m in Trues(o, p) && m.Mark? ==> m.status == True
    decreases p
  {
    if p.Then? { TruesAreTrue(o, p.tail); }
  }

  lemma FalseMarksShort(o: Oracle, st: Stage)
    ensures var w := FalseMarks(o, st); |w| <= 1 && (w != [] && w[0].Mark? ==> w[0].status == False)
  {
  }

  /** RunMarks for a pass that starts without marks. */
  lemma ProgramMarks(k: Reconciler, o: Oracle, p: Program, l: Local) returns (n: nat)
    requires l.memo.marks == [] && NeverMarksTrue(p, Ready)
    ensures var m := Run(k, o, p, l).local.memo;
            && n <= |m.marks|
            && m.marks[..n] <= Trues(o, p)
            && (n < |m.marks| ==> n + 1 == |m.marks|)
            && (n < |m.marks| && m.marks[n].Mark? ==>
                  && m.marks[n].status == False && m.marks[n].cond != Ready
                  && m.status.conditions.Some? && m.marks[n].cond in m.status.conditions.value
                  && m.status.conditions.value[m.marks[n].cond] == False)
  {
    hide Run, FalseMarks, TrueMarks, NeverMarksTrue;
    var i := RunMarks(k, o, p, l);
    TakePrefix(o, p, i);
    var f := Run(k, o, p, l);
    n := if f.Next? then |Trues(o, p)| else |Trues(o, Take(p, i))|;
    if f.Stop? {
      FalseMarksShort(o, StageAt(p, i));
      assert f.local.memo.marks[..n] == Trues(o, Take(p, i));
      assert f.local.memo.marks[n..] == FalseMarks(o, StageAt(p, i));
    }
  }

  // ---------------------------------------------------------------- deployments

  /** Whenever a gated run reaches a deployment, the hash that it deploys is the one
      that was recorded when it began. */
  lemma {:induction false} DeployAt(
    k: Reconciler, o: Oracle, p: Program, l: Local, n: nat, recorded: string, open: bool)
    requires Gated(p, open) && Gatekept(l.memo, recorded, open) && Hashes(k)
    requires n < Length(p) && StageAt(p, n).Deploy? && Run(k, o, Take(p, n), l).Next?
    ensures Run(k, o, Take(p, n), l).local.memo.inputHash == recorded != ""
    decreases n
  {
    hide Judge;
    if n > 0 {
      JudgeGatekept(k, o, p.head, l.spec, l.memo, recorded, open);
      var f := Step(k, o, p.head, l);
      DeployAt(k, o, p.tail, f.local, n - 1, recorded, open || p.head.Gate?);
    }
  }

  /** Any pass that reaches a deployment deploys a hash that the stored status had
      recorded before the pass began. */
  lemma DeployHashWasRecorded(k: Reconciler, o: Oracle, s: Store, deps: set<Dependent>, n: nat)
    requires Disciplined(k, deps) && Hashes(k)
    ensures var s1 := Acts(s, o.env(Fetch));
            s1.cr.Some? && s1.cr.value.status.conditions.Some? ==>
              var p := ProgramOf(k, o, s1.cr.value);
              n < Length(p) && StageAt(p, n).Deploy? ==>
                var f := Run(k, o, Take(p, n), Begin(s1, s1.cr.value));
                f.Next? ==> Recorded(s, f.local.memo.inputHash)
  {
    hide Run, Acts, Judge, Live, LetsGo, Gated;
    ActsKeep(s, o.env(Fetch));
    var s1 := Acts(s, o.env(Fetch));
    if s1.cr.Some? && s1.cr.value.status.conditions.Some? {
      var cr := s1.cr.value;
      var p := ProgramOf(k, o, cr);
      if n < Length(p) && StageAt(p, n).Deploy? && Run(k, o, Take(p, n), Begin(s1, cr)).Next? {
        LiveShape(Normal(k, o.publicFirst), deps, false);
        LetsGoGated(k.delete, deps, false);
        DeployAt(k, o, p, Begin(s1, cr), n, Lookup(cr.status.hash, InputHash), false);
      }
    }
  }
}
