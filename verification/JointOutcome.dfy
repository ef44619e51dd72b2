/** What the whole operator leaves behind: no finalizer of a disabled service, and the
    final configuration of an enabled one. */
module JointOutcome {
  import opened Conditions
  import opened Cluster
  import opened JointConvergence
  import S = Stages
  import F = Safety
  import P = Programs
  import C = Convergence
  import A = Admission
  import T = TelemetryParent
  import R = TelemetryRuns
  import V = TelemetryConvergence
  import TelemetryReadiness

  // ---------------------------------------------------------------- finalizers of disabled services

  /** The finalizer invariant of both services with dependents. */
  predicate Held(j: Joint) {
    F.Covered(j.aodh, P.AODH_DEPS) && F.Covered(j.ceilometer, P.CEILOMETER_DEPS)
  }

  /** The parent only lets an object go that does not carry our finalizer. */
  lemma PushCovered(
    c: Setting, s: Store, t: A.TelemetrySpec, kind: T.Kind, child: Option<T.Child>, deps: set<Dependent>)
    requires Mirrors(s, child) && F.Covered(s, deps) && (child.Some? ==> R.SoundChild(child.value))
    ensures F.Covered(Push(c, s, V.ParentStep(c.d, t, kind, child)), deps)
  {
    hide T.Admit, T.CopyInto;
    var r := Push(c, s, V.ParentStep(c.d, t, kind, child));
    assert forall d :: HoldsOurs(r, d) <==> HoldsOurs(s, d);
  }

  lemma ParentMoveHeld(c: Setting, j: Joint, p: T.Oracle)
    requires Coupled(j) && V.Ok(j.world) && V.AtomicParent(p) && Held(j)
    ensures Held(Move1(c, j, ParentMove(p)))
  {
    V.SoundOwner(j.world, T.Autoscalings);
    V.SoundOwner(j.world, T.Ceilometers);
    hide T.Pass, V.ParentStep, Mirrors, MirrorsStorage, Push, PushStorage, R.Kept, F.Covered;
    var t := j.world.parent.value.spec;
    V.CalmParentPass(c.d, p, j.world, T.Autoscalings);
    V.CalmParentPass(c.d, p, j.world, T.Ceilometers);
    PushCovered(c, j.aodh, t, T.Autoscalings, T.Get(j.world, T.Autoscalings), P.AODH_DEPS);
    PushCovered(c, j.ceilometer, t, T.Ceilometers, T.Get(j.world, T.Ceilometers), P.CEILOMETER_DEPS);
  }

  lemma MoveHeld(c: Setting, j: Joint, m: Move)
    requires Coupled(j) && V.Ok(j.world) && CalmMove(m) && Held(j)
    ensures Held(Move1(c, j, m))
  {
    hide S.Reconcile, F.Covered, T.Pass, Pull, PullStorage, Push, PushStorage, Coupled, V.Ok, F.Disciplined;
    match m
    case ParentMove(p) => ParentMoveHeld(c, j, p);
    case AodhMove(o) =>
      P.AutoscalingDisciplined(c.namespace, c.aodhHash);
      F.PassCovered(Aodh(c), o, j.aodh, P.AODH_DEPS);
    case CeilometerMove(o) =>
      P.CeilometerDisciplined(c.namespace, c.ceilometerHash);
      F.PassCovered(Ceilometer(c), o, j.ceilometer, P.CEILOMETER_DEPS);
    case StorageMove(_) =>
  }

  /** A move keeps what the others rely on. */
  lemma MoveKeepsOk(c: Setting, j: Joint, m: Move)
    requires Coupled(j) && V.Ok(j.world) && CalmMove(m)
    ensures var r := Move1(c, j, m);
            Coupled(r) && V.Ok(r.world) && r.world.parent.value.spec == j.world.parent.value.spec
  {
    hide Coupled, CalmMove, Move1, EventOf, V.CalmEvent, R.Kept, T.Exec1;
    MoveSimulates(c, j, m);
    V.EventRank(c.d, j.world, EventOf(c, j, m), T.Autoscalings);
  }

  lemma {:induction false} MovesHeld(c: Setting, j: Joint, ms: seq<Move>)
    requires Coupled(j) && V.Ok(j.world) && forall i :: 0 <= i < |ms| ==> CalmMove(ms[i])
    ensures var r := Moves(c, j, ms); (Held(j) ==> Held(r)) && Coupled(r) && V.Ok(r.world)
    decreases |ms|
  {
    if ms != [] {
      hide Coupled, CalmMove, Move1, Held, V.Ok;
      if Held(j) { MoveHeld(c, j, ms[0]); }
      MoveKeepsOk(c, j, ms[0]);
      MovesHeld(c, Move1(c, j, ms[0]), ms[1..]);
    }
  }

  lemma {:induction false} RoundsHeld(c: Setting, j: Joint, rounds: seq<seq<Move>>, kind: T.Kind)
    requires Coupled(j) && V.Ok(j.world) && forall i :: 0 <= i < |rounds| ==> FairMoves(rounds[i], kind)
    ensures var r := Rounds(c, j, rounds); (Held(j) ==> Held(r)) && Coupled(r) && V.Ok(r.world)
    decreases |rounds|
  {
    if rounds != [] {
      hide Coupled, CalmMove, Moves, Held, V.Ok;
      assert FairMoves(rounds[0], kind);
      MovesHeld(c, j, rounds[0]);
      RoundsHeld(c, Moves(c, j, rounds[0]), rounds[1..], kind);
    }
  }

  /** Disabling a service cleans up: after any past and four fair rounds of actual passes,
      a disabled Autoscaling is gone and none of its dependents carries our finalizer. */
  lemma DisabledAutoscalingLeavesNothing(
    c: Setting, w: T.World, past: seq<T.Event>, j: Joint, rounds: seq<seq<Move>>, d: Dependent)
    requires R.Sound(w) && j.world == T.Exec(c.d, w, past)
    requires TelemetryReadiness.Working(j.world) && Coupled(j) && Held(j)
    requires |rounds| >= 4 && forall i :: 0 <= i < |rounds| ==> FairMoves(rounds[i], T.Autoscalings)
    requires !j.world.parent.value.spec.autoscalingEnabled
    ensures var r := Rounds(c, j, rounds); r.aodh.cr.None? && !HoldsOurs(r.aodh, d)
  {
    hide T.Exec, FairMoves, R.Kept, Rounds, Coupled;
    R.RunSound(c.d, w, past);
    OperatorConverges(c, w, past, j, rounds, T.Autoscalings);
    RoundsHeld(c, j, rounds, T.Autoscalings);
  }

  /** The same for Ceilometer. */
  lemma DisabledCeilometerLeavesNothing(
    c: Setting, w: T.World, past: seq<T.Event>, j: Joint, rounds: seq<seq<Move>>, d: Dependent)
    requires R.Sound(w) && j.world == T.Exec(c.d, w, past)
    requires TelemetryReadiness.Working(j.world) && Coupled(j) && Held(j)
    requires |rounds| >= 4 && forall i :: 0 <= i < |rounds| ==> FairMoves(rounds[i], T.Ceilometers)
    requires !j.world.parent.value.spec.ceilometerEnabled
    ensures var r := Rounds(c, j, rounds); r.ceilometer.cr.None? && !HoldsOurs(r.ceilometer, d)
  {
    hide T.Exec, FairMoves, R.Kept, Rounds, Coupled;
    R.RunSound(c.d, w, past);
    OperatorConverges(c, w, past, j, rounds, T.Ceilometers);
    RoundsHeld(c, j, rounds, T.Ceilometers);
  }

  // ---------------------------------------------------------------- configuration of an enabled service

  /** The spec that the parent wants its Autoscaling child to have. */
  function Wanted(c: Setting, t: A.TelemetrySpec): T.Payload {
    T.Admit(c.d, T.CopyInto(t, T.Autoscalings, None))
  }

  /** An enabled Autoscaling child, perhaps a new one, whose spec the parent has written. */
  predicate Served(c: Setting, j: Joint) {
    var child := T.Get(j.world, T.Autoscalings);
    && j.world.parent.Some? && j.world.parent.value.spec.autoscalingEnabled && C.Alive(j.aodh)
    && child.Some? && child.value.spec == Wanted(c, j.world.parent.value.spec)
    && j.aodh.cr.value.spec == c.read(child.value.spec)
  }

  /** The moves that matter to the Autoscaling controller. */
  ghost predicate AgreesWith(m: Move, o: S.Oracle) {
    m.AodhMove? ==> C.Calm(m.o) && C.SameInputs(m.o, o)
  }

  lemma ParentServes(c: Setting, j: Joint, p: T.Oracle)
    requires Coupled(j) && V.Ok(j.world) && V.AtomicParent(p)
    requires j.world.parent.value.spec.autoscalingEnabled && C.Alive(j.aodh)
    ensures var r := Move1(c, j, ParentMove(p));
            && Served(c, r) && (Served(c, j) ==> r.aodh == j.aodh)
  {
    hide T.Pass, R.Kept, T.Admit, PushStorage, MirrorsStorage;
    V.CalmParentPass(c.d, p, j.world, T.Autoscalings);
  }

  lemma AodhMoveServes(c: Setting, j: Joint, x: S.Oracle)
    requires Coupled(j) && Served(c, j) && C.Calm(x)
    ensures var r := Move1(c, j, AodhMove(x));
            Served(c, r) && r.aodh == S.Reconcile(Aodh(c), x, j.aodh)
  {
    hide S.Reconcile, C.AodhGoal, P.AutoscalingProgram, P.DeleteAodh, Wanted, MirrorsStorage;
    C.CalmKeepsLive(Aodh(c), x, j.aodh);
  }

  /** The others leave the Autoscaling store alone. */
  lemma OtherMoveServes(c: Setting, j: Joint, m: Move)
    requires Coupled(j) && Served(c, j) && (m.CeilometerMove? || m.StorageMove?)
    ensures var r := Move1(c, j, m); Served(c, r) && r.aodh == j.aodh
  {
    hide S.Reconcile, Wanted, C.Alive;
  }

  lemma MoveServes(c: Setting, j: Joint, m: Move, o: S.Oracle)
    requires Coupled(j) && V.Ok(j.world) && CalmMove(m) && Served(c, j) && AgreesWith(m, o)
    ensures var r := Move1(c, j, m);
            Served(c, r) && r.aodh == if m.AodhMove? then S.Reconcile(Aodh(c), m.o, j.aodh) else j.aodh
  {
    hide Move1, S.Reconcile, Coupled, R.Kept, Wanted;
    match m
    case ParentMove(p) => ParentServes(c, j, p);
    case AodhMove(x) => AodhMoveServes(c, j, x);
    case CeilometerMove(_) => OtherMoveServes(c, j, m);
    case StorageMove(_) => OtherMoveServes(c, j, m);
  }

  /** The passes of the Autoscaling controller among the moves, in their order. */
  function AodhOracles(ms: seq<Move>): seq<S.Oracle>
    decreases |ms|
  {
    if ms == [] then []
    else (if ms[0].AodhMove? then [ms[0].o] else []) + AodhOracles(ms[1..])
  }

  lemma TurnsCons(k: S.Reconciler, x: S.Oracle, os: seq<S.Oracle>, s: Store)
    ensures C.Turns(k, [x] + os, s) == C.Turns(k, os, S.Reconcile(k, x, s))
  {
    hide S.Reconcile;
    C.TurnsSplit(k, [x] + os, 1, s);
    assert ([x] + os)[..1] == [x] && ([x] + os)[1..] == os;
    assert [x][..0] == [] && C.Turns(k, [x][..0], s) == s;
  }

  lemma {:induction false} OraclesAgree(ms: seq<Move>, o: S.Oracle)
    requires forall i :: 0 <= i < |ms| ==> AgreesWith(ms[i], o)
    ensures C.CalmPasses(AodhOracles(ms), o)
    decreases |ms|
  {
    hide C.Calm, C.SameInputs;
    if ms != [] { OraclesAgree(ms[1..], o); }
  }

  /** Whatever else happens in between, the Autoscaling store makes exactly the passes of
      its own controller. */
  lemma {:induction false} MovesAreTurns(c: Setting, j: Joint, ms: seq<Move>, o: S.Oracle)
    requires Coupled(j) && V.Ok(j.world) && Served(c, j)
    requires forall i :: 0 <= i < |ms| ==> CalmMove(ms[i]) && AgreesWith(ms[i], o)
    ensures Moves(c, j, ms).aodh == C.Turns(Aodh(c), AodhOracles(ms), j.aodh)
    decreases |ms|
  {
    if ms != [] {
      hide Coupled, CalmMove, Move1, V.Ok, Served, AgreesWith, S.Reconcile, C.Turns;
      MoveKeepsOk(c, j, ms[0]);
      MoveServes(c, j, ms[0], o);
      var j' := Move1(c, j, ms[0]);
      MovesAreTurns(c, j', ms[1..], o);
      if ms[0].AodhMove? {
        TurnsCons(Aodh(c), ms[0].o, AodhOracles(ms[1..]), j.aodh);
      } else {
        assert [] + AodhOracles(ms[1..]) == AodhOracles(ms[1..]);
      }
    }
  }

  /** A parent pass, and then any moves with six or more Autoscaling passes among them. */
  lemma LiveAutoscalingConverges(c: Setting, j: Joint, p: T.Oracle, ms: seq<Move>, o: S.Oracle)
    requires Coupled(j) && V.Ok(j.world) && V.AtomicParent(p)
    requires j.world.parent.value.spec.autoscalingEnabled && C.Alive(j.aodh)
    requires forall i :: 0 <= i < |ms| ==> CalmMove(ms[i]) && AgreesWith(ms[i], o)
    requires |AodhOracles(ms)| >= 6
    ensures var r := Moves(c, Move1(c, j, ParentMove(p)), ms);
            && C.ConvergedTo(Aodh(c), o, r.aodh)
            && r.aodh.cr.value.spec == c.read(Wanted(c, j.world.parent.value.spec))
  {
    assert CalmMove(ParentMove(p));
    hide Coupled, CalmMove, Move1, Moves, R.Kept, AodhOracles, C.Turns, C.Calm, AgreesWith, Wanted;
    MoveKeepsOk(c, j, ParentMove(p));
    ParentServes(c, j, p);
    var j' := Move1(c, j, ParentMove(p));
    MovesAreTurns(c, j', ms, o);
    OraclesAgree(ms, o);
    C.AutoscalingBringUp(c.namespace, c.aodhHash, o, j'.aodh, AodhOracles(ms));
  }

  /** An enabled Autoscaling converges inside the operator: after any past, four fair
      rounds and a pass of the parent, any moves that contain six or more failure-free
      Autoscaling passes with the same inputs, interleaved with passes of the parent and
      of the other controllers, leave the configuration that the parent asks for recorded
      and deployed. */
  lemma EnabledAutoscalingConverges(
    c: Setting, w: T.World, past: seq<T.Event>, j: Joint, rounds: seq<seq<Move>>,
    p: T.Oracle, ms: seq<Move>, o: S.Oracle)
    requires R.Sound(w) && j.world == T.Exec(c.d, w, past)
    requires TelemetryReadiness.Working(j.world) && Coupled(j)
    requires |rounds| >= 4 && forall i :: 0 <= i < |rounds| ==> FairMoves(rounds[i], T.Autoscalings)
    requires j.world.parent.value.spec.autoscalingEnabled && V.AtomicParent(p)
    requires forall i :: 0 <= i < |ms| ==> CalmMove(ms[i]) && AgreesWith(ms[i], o)
    requires |AodhOracles(ms)| >= 6
    ensures var r := Moves(c, Move1(c, Rounds(c, j, rounds), ParentMove(p)), ms);
            && C.ConvergedTo(Aodh(c), o, r.aodh)
            && r.aodh.cr.value.spec == c.read(Wanted(c, j.world.parent.value.spec))
  {
    hide T.Exec, FairMoves, R.Kept, Rounds, Coupled, CalmMove, AodhOracles, AgreesWith, V.AtomicParent;
    hide Wanted, Move1, Moves, C.ConvergedTo;
    R.RunSound(c.d, w, past);
    OperatorConverges(c, w, past, j, rounds, T.Autoscalings);
    RoundsHeld(c, j, rounds, T.Autoscalings);
    LiveAutoscalingConverges(c, Rounds(c, j, rounds), p, ms, o);
  }
}
