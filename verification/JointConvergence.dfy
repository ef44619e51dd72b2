/** Parent and children together: convergence of Telemetry passes interleaved with the
    passes of the actual Autoscaling, Ceilometer and MetricStorage controllers. */
module JointConvergence {
  import opened Conditions
  import opened Cluster
  import opened ChildRefinement
  import S = Stages
  import P = Programs
  import C = Convergence
  import W = Watches
  import A = Admission
  import T = TelemetryParent
  import R = TelemetryRuns
  import V = TelemetryConvergence
  import TelemetryReadiness

  /** What does not change: the namespace, the two hash functions, the image defaults,
      and what a child controller reads from a child's spec. */
  datatype Setting = Setting(
    d: T.Defaults, namespace: string,
    aodhHash: map<S.Var, string> -> string, ceilometerHash: map<S.Var, string> -> string,
    read: T.Payload -> Spec)

  function Aodh(c: Setting): S.Reconciler {
    P.Autoscaling(c.namespace, c.aodhHash)
  }

  function Ceilometer(c: Setting): S.Reconciler {
    P.Ceilometer(c.namespace, c.ceilometerHash)
  }

  /** The cluster as the parent sees it, and the same children as their controllers see
      them. */
  datatype Joint = Joint(
    world: T.World, aodh: Store, ceilometer: Store,
    storage: Option<W.MetricStorage>, watching: seq<string>, registered: seq<string>)

  predicate Mirrors(s: Store, c: Option<T.Child>) {
    if c.None? then s.cr.None? else Seen(s, c.value.owner, c.value.spec) == c
  }

  predicate MirrorsStorage(m: Option<W.MetricStorage>, c: Option<T.Child>) {
    if c.None? then m.None? else SeenStorage(m, c.value.owner, c.value.spec) == c
  }

  /** The two views are of the same objects. */
  predicate Coupled(j: Joint) {
    && Mirrors(j.aodh, T.Get(j.world, T.Autoscalings))
    && Mirrors(j.ceilometer, T.Get(j.world, T.Ceilometers))
    && MirrorsStorage(j.storage, T.Get(j.world, T.MetricStorages))
  }

  // ---------------------------------------------------------------- moves

  datatype Move =
    | ParentMove(p: T.Oracle)
    | AodhMove(o: S.Oracle)
    | CeilometerMove(o: S.Oracle)
    | StorageMove(w: W.Oracle)

  /** A write of the parent, in the store of the child's controller. */
  function Push(c: Setting, s: Store, child: Option<T.Child>): Store {
    if child.None? then s.(cr := None)
    else if s.cr.None? then
      s.(cr := Some(Resource(s.nextUid, child.value.meta, c.read(child.value.spec), EMPTY_STATUS)),
         nextUid := s.nextUid + 1)
    else s.(cr := Some(s.cr.value.(meta := child.value.meta, spec := c.read(child.value.spec))))
  }

  function PushStorage(m: Option<W.MetricStorage>, child: Option<T.Child>): Option<W.MetricStorage> {
    if child.None? then None
    else
      var spec := V.StorageOf(child.value);
      Some(if m.None? then W.MetricStorage(child.value.meta, spec, None)
           else m.value.(meta := child.value.meta, spec := spec))
  }

  /** A child as its controller left it, in the parent's view. */
  function Pull(w: T.World, kind: T.Kind, s: Store): T.World {
    var c := T.Get(w, kind);
    if c.None? then w else T.Put(w, kind, Seen(s, c.value.owner, c.value.spec))
  }

  function PullStorage(w: T.World, m: Option<W.MetricStorage>): T.World {
    var c := T.Get(w, T.MetricStorages);
    if c.None? then w else T.Put(w, T.MetricStorages, SeenStorage(m, c.value.owner, c.value.spec))
  }

  function Move1(c: Setting, j: Joint, m: Move): Joint {
    match m
    case ParentMove(p) =>
      var w := T.Pass(c.d, p, j.world).0;
      j.(world := w, aodh := Push(c, j.aodh, T.Get(w, T.Autoscalings)),
         ceilometer := Push(c, j.ceilometer, T.Get(w, T.Ceilometers)),
         storage := PushStorage(j.storage, T.Get(w, T.MetricStorages)))
    case AodhMove(o) =>
      var s := S.Reconcile(Aodh(c), o, j.aodh);
      j.(aodh := s, world := Pull(j.world, T.Autoscalings, s))
    case CeilometerMove(o) =>
      var s := S.Reconcile(Ceilometer(c), o, j.ceilometer);
      j.(ceilometer := s, world := Pull(j.world, T.Ceilometers, s))
    case StorageMove(o) =>
      var p := W.Pass(o, j.storage, j.watching, j.registered);
      j.(storage := p.out.stored, watching := p.watching, registered := p.registered,
         world := PullStorage(j.world, p.out.stored))
  }

  /** Parent passes no longer fail; children's passes may. */
  ghost predicate CalmMove(m: Move) {
    match m
    case ParentMove(p) => V.AtomicParent(p)
    case AodhMove(o) => Unmeddled(o)
    case CeilometerMove(o) => Unmeddled(o)
    case StorageMove(o) => OnlyEdits(o.env)
  }

  /** The same move in the protocol of module TelemetryParent. */
  function EventOf(c: Setting, j: Joint, m: Move): T.Event {
    match m
    case ParentMove(p) => T.ParentPass(p)
    case AodhMove(o) => T.OnChild(T.Passes(T.Autoscalings, EffectOf(Aodh(c), o, j.aodh)))
    case CeilometerMove(o) => T.OnChild(T.Passes(T.Ceilometers, EffectOf(Ceilometer(c), o, j.ceilometer)))
    case StorageMove(o) =>
      T.OnChild(T.Passes(T.MetricStorages, StorageEffect(o, W.Pass(o, j.storage, j.watching, j.registered).out.stored)))
  }

  // ---------------------------------------------------------------- simulation

  lemma MirrorIsStored(w: T.World, kind: T.Kind, s: Store)
    requires R.Sound(w) && Mirrors(s, T.Get(w, kind))
    ensures Stored(s)
  {
    V.SoundOwner(w, kind);
  }

  /** A pass of a child controller is the corresponding event, and keeps the views the
      same; `s` is the child's store before and `r` after it. */
  lemma PullSimulates(c: Setting, w: T.World, kind: T.Kind, s: Store, r: Store, x: T.Effect)
    requires Mirrors(s, T.Get(w, kind))
    requires forall owner, spec :: Refines(s, r, x, owner, spec)
    ensures Pull(w, kind, r) == T.Happens(c.d, w, T.Passes(kind, x))
    ensures Mirrors(r, T.Get(Pull(w, kind, r), kind))
    ensures forall other :: other != kind ==> T.Get(Pull(w, kind, r), other) == T.Get(w, other)
  {
    hide T.ChildPass;
    var child := T.Get(w, kind);
    if child.Some? {
      assert Refines(s, r, x, child.value.owner, child.value.spec);
      PassKeepsOwner(child.value, x);
    } else {
      assert Refines(s, r, x, T.Nobody, T.StoragePayload(T.NO_STORAGE));
    }
  }

  lemma PassKeepsOwner(c: T.Child, x: T.Effect)
    ensures var r := T.ChildPass(c, x); r.Some? ==> r.value.owner == c.owner && r.value.spec == c.spec
  {
  }

  lemma PullStorageSimulates(c: Setting, j: Joint, o: W.Oracle)
    requires R.Sound(j.world) && OnlyEdits(o.env) && MirrorsStorage(j.storage, T.Get(j.world, T.MetricStorages))
    ensures var stored := W.Pass(o, j.storage, j.watching, j.registered).out.stored;
            var w := PullStorage(j.world, stored);
            && w == T.Happens(c.d, j.world, T.Passes(T.MetricStorages, StorageEffect(o, stored)))
            && MirrorsStorage(stored, T.Get(w, T.MetricStorages))
            && (forall other :: other != T.MetricStorages ==> T.Get(w, other) == T.Get(j.world, other))
  {
    hide T.ChildPass, W.Pass, StorageEffect;
    V.SoundOwner(j.world, T.MetricStorages);
    var child := T.Get(j.world, T.MetricStorages);
    var stored := W.Pass(o, j.storage, j.watching, j.registered).out.stored;
    var owner := if child.Some? then child.value.owner else T.Nobody;
    var spec := if child.Some? then child.value.spec else T.StoragePayload(T.NO_STORAGE);
    MetricStorageRefines(o, j.storage, j.watching, j.registered, owner, spec);
    if child.Some? { PassKeepsOwner(child.value, StorageEffect(o, stored)); }
  }

  /** What the parent writes reaches the controllers: its step keeps what they know. */
  lemma PushMirrors(c: Setting, s: Store, t: A.TelemetrySpec, kind: T.Kind, child: Option<T.Child>)
    requires Mirrors(s, child)
    ensures var r := V.ParentStep(c.d, t, kind, child); Mirrors(Push(c, s, r), r)
  {
    hide T.Admit, T.CopyInto;
  }

  lemma PushStorageMirrors(c: Setting, m: Option<W.MetricStorage>, t: A.TelemetrySpec, child: Option<T.Child>)
    requires MirrorsStorage(m, child)
    ensures var r := V.ParentStep(c.d, t, T.MetricStorages, child); MirrorsStorage(PushStorage(m, r), r)
  {
    hide T.Admit, T.CopyInto;
  }

  lemma ParentMoveCoupled(c: Setting, j: Joint, p: T.Oracle)
    requires Coupled(j) && V.Ok(j.world) && V.AtomicParent(p)
    ensures Coupled(Move1(c, j, ParentMove(p)))
  {
    hide T.Pass, V.ParentStep, Mirrors, MirrorsStorage, Push, PushStorage, R.Sound;
    var t := j.world.parent.value.spec;
    V.CalmParentPass(c.d, p, j.world, T.Autoscalings);
    V.CalmParentPass(c.d, p, j.world, T.Ceilometers);
    V.CalmParentPass(c.d, p, j.world, T.MetricStorages);
    PushMirrors(c, j.aodh, t, T.Autoscalings, T.Get(j.world, T.Autoscalings));
    PushMirrors(c, j.ceilometer, t, T.Ceilometers, T.Get(j.world, T.Ceilometers));
    PushStorageMirrors(c, j.storage, t, T.Get(j.world, T.MetricStorages));
  }

  lemma AodhMoveSimulates(c: Setting, j: Joint, o: S.Oracle)
    requires Coupled(j) && R.Sound(j.world) && Unmeddled(o)
    ensures var r := Move1(c, j, AodhMove(o));
            Coupled(r) && r.world == T.Exec1(c.d, j.world, EventOf(c, j, AodhMove(o)))
  {
    hide S.Reconcile, EffectOf, Refines, Mirrors, MirrorsStorage, Stored, P.Autoscaling, R.Sound, Pull, T.Happens;
    MirrorIsStored(j.world, T.Autoscalings, j.aodh);
    var k := Aodh(c);
    forall owner, spec
      ensures Refines(j.aodh, S.Reconcile(k, o, j.aodh), EffectOf(k, o, j.aodh), owner, spec)
    {
      AutoscalingRefines(c.namespace, c.aodhHash, o, j.aodh, owner, spec);
    }
    PullSimulates(c, j.world, T.Autoscalings, j.aodh, S.Reconcile(k, o, j.aodh), EffectOf(k, o, j.aodh));
  }

  lemma CeilometerMoveSimulates(c: Setting, j: Joint, o: S.Oracle)
    requires Coupled(j) && R.Sound(j.world) && Unmeddled(o)
    ensures var r := Move1(c, j, CeilometerMove(o));
            Coupled(r) && r.world == T.Exec1(c.d, j.world, EventOf(c, j, CeilometerMove(o)))
  {
    hide S.Reconcile, EffectOf, Refines, Mirrors, MirrorsStorage, Stored, P.Ceilometer, R.Sound, Pull, T.Happens;
    MirrorIsStored(j.world, T.Ceilometers, j.ceilometer);
    var k := Ceilometer(c);
    forall owner, spec
      ensures Refines(j.ceilometer, S.Reconcile(k, o, j.ceilometer), EffectOf(k, o, j.ceilometer), owner, spec)
    {
      CeilometerRefines(c.namespace, c.ceilometerHash, o, j.ceilometer, owner, spec);
    }
    PullSimulates(c, j.world, T.Ceilometers, j.ceilometer,
                  S.Reconcile(k, o, j.ceilometer), EffectOf(k, o, j.ceilometer));
  }

  /** Every move is an event of the protocol and keeps the two views the same. */
  lemma MoveSimulates(c: Setting, j: Joint, m: Move)
    requires Coupled(j) && V.Ok(j.world) && CalmMove(m)
    ensures var r := Move1(c, j, m);
            && Coupled(r) && r.world == T.Exec1(c.d, j.world, EventOf(c, j, m))
            && V.CalmEvent(EventOf(c, j, m))
  {
    hide S.Reconcile, EffectOf, StorageEffect, W.Pass, T.Pass, Mirrors, MirrorsStorage, R.Sound;
    hide Pull, PullStorage, Push, PushStorage;
    match m
    case ParentMove(p) => ParentMoveCoupled(c, j, p);
    case AodhMove(o) => AodhMoveSimulates(c, j, o);
    case CeilometerMove(o) => CeilometerMoveSimulates(c, j, o);
    case StorageMove(o) => PullStorageSimulates(c, j, o);
  }

  // ---------------------------------------------------------------- fair rounds

  ghost predicate CalmStorage(o: W.Oracle) {
    !o.fetchFails && o.env == [] && o.patchMeta && o.patchStatus
  }

  /** A pass of the child's controller in which no call fails. */
  ghost predicate CalmChildMove(m: Move, kind: T.Kind) {
    match kind
    case Autoscalings => m.AodhMove? && C.Calm(m.o)
    case Ceilometers => m.CeilometerMove? && C.Calm(m.o)
    case MetricStorages => m.StorageMove? && CalmStorage(m.w)
  }

  /** A stretch of moves, in any order, with a parent pass and a pass of the child in
      which nothing fails. */
  ghost predicate FairMoves(ms: seq<Move>, kind: T.Kind) {
    && (forall i :: 0 <= i < |ms| ==> CalmMove(ms[i]))
    && (exists i :: 0 <= i < |ms| && CalmChildMove(ms[i], kind))
    && (exists i :: 0 <= i < |ms| && ms[i].ParentMove?)
  }

  function Moves(c: Setting, j: Joint, ms: seq<Move>): Joint
    decreases |ms|
  {
    if ms == [] then j else Moves(c, Move1(c, j, ms[0]), ms[1..])
  }

  function EventsOf(c: Setting, j: Joint, ms: seq<Move>): (es: seq<T.Event>)
    ensures |es| == |ms|
    decreases |ms|
  {
    if ms == [] then [] else [EventOf(c, j, ms[0])] + EventsOf(c, Move1(c, j, ms[0]), ms[1..])
  }

  lemma CalmHelps(c: Setting, j: Joint, m: Move, kind: T.Kind)
    requires Coupled(j) && R.Sound(j.world) && CalmMove(m)
    ensures CalmChildMove(m, kind) ==> V.Helps(EventOf(c, j, m), kind, true)
    ensures m.ParentMove? ==> V.Helps(EventOf(c, j, m), kind, false)
  {
    hide S.Reconcile, EffectOf, W.Pass, P.Autoscaling, P.Ceilometer, R.Sound, T.GoesThrough;
    var spec := T.StoragePayload(T.NO_STORAGE);
    if kind == T.Autoscalings && CalmChildMove(m, kind) {
      MirrorIsStored(j.world, kind, j.aodh);
      AutoscalingRefines(c.namespace, c.aodhHash, m.o, j.aodh, T.Us, spec);
    } else if kind == T.Ceilometers && CalmChildMove(m, kind) {
      MirrorIsStored(j.world, kind, j.ceilometer);
      CeilometerRefines(c.namespace, c.ceilometerHash, m.o, j.ceilometer, T.Us, spec);
    } else if CalmChildMove(m, kind) {
      CalmStorageGoes(m.w, W.Pass(m.w, j.storage, j.watching, j.registered).out.stored);
    }
  }

  lemma CalmStorageGoes(o: W.Oracle, stored: Option<W.MetricStorage>)
    requires CalmStorage(o)
    ensures T.GoesThrough(StorageEffect(o, stored))
  {
  }

  /** The events help where the moves do. */
  ghost predicate Follow(es: seq<T.Event>, ms: seq<Move>, kind: T.Kind) {
    && |es| == |ms|
    && (forall i :: 0 <= i < |es| ==> V.CalmEvent(es[i]))
    && (forall i :: 0 <= i < |ms| && CalmChildMove(ms[i], kind) ==> V.Helps(es[i], kind, true))
    && (forall i :: 0 <= i < |ms| && ms[i].ParentMove? ==> V.Helps(es[i], kind, false))
  }

  lemma FollowMore(e: T.Event, es: seq<T.Event>, ms: seq<Move>, kind: T.Kind)
    requires ms != [] && Follow(es, ms[1..], kind) && V.CalmEvent(e)
    requires CalmChildMove(ms[0], kind) ==> V.Helps(e, kind, true)
    requires ms[0].ParentMove? ==> V.Helps(e, kind, false)
    ensures Follow([e] + es, ms, kind)
  {
    hide V.CalmEvent, V.Helps, CalmChildMove;
    assert forall i :: 0 < i < |ms| ==> ms[i] == ms[1..][i - 1];
  }

  lemma ExecMore(d: T.Defaults, w: T.World, e: T.Event, es: seq<T.Event>)
    ensures T.Exec(d, w, [e] + es) == T.Exec(d, T.Exec1(d, w, e), es)
  {
    hide T.Exec1;
    assert ([e] + es)[1..] == es;
  }

  /** The moves are a run of the protocol, event by event. */
  lemma {:induction false} MovesSimulate(c: Setting, j: Joint, ms: seq<Move>, kind: T.Kind)
    requires Coupled(j) && V.Ok(j.world) && forall i :: 0 <= i < |ms| ==> CalmMove(ms[i])
    ensures var r := Moves(c, j, ms);
            var es := EventsOf(c, j, ms);
            Coupled(r) && r.world == T.Exec(c.d, j.world, es) && Follow(es, ms, kind)
    decreases |ms|
  {
    if ms != [] {
      hide Coupled, CalmMove, Move1, EventOf, V.CalmEvent, V.Helps, CalmChildMove, R.Sound, T.Exec1, T.Exec, Follow;
      var e := EventOf(c, j, ms[0]);
      MoveSimulates(c, j, ms[0]);
      CalmHelps(c, j, ms[0], kind);
      V.EventRank(c.d, j.world, e, kind);
      var j' := Move1(c, j, ms[0]);
      MovesSimulate(c, j', ms[1..], kind);
      FollowMore(e, EventsOf(c, j', ms[1..]), ms, kind);
      ExecMore(c.d, j.world, e, EventsOf(c, j', ms[1..]));
    }
  }

  lemma FairMovesFair(c: Setting, j: Joint, ms: seq<Move>, kind: T.Kind)
    requires Coupled(j) && V.Ok(j.world) && FairMoves(ms, kind)
    ensures V.FairRound(EventsOf(c, j, ms), kind)
    ensures var r := Moves(c, j, ms); Coupled(r) && r.world == T.Exec(c.d, j.world, EventsOf(c, j, ms))
  {
    hide Coupled, CalmMove, EventsOf, Moves, V.CalmEvent, V.Helps, CalmChildMove, R.Sound, T.Exec;
    MovesSimulate(c, j, ms, kind);
    var es := EventsOf(c, j, ms);
    var i :| 0 <= i < |ms| && CalmChildMove(ms[i], kind);
    assert V.Helps(es[i], kind, true);
    var n :| 0 <= n < |ms| && ms[n].ParentMove?;
    assert V.Helps(es[n], kind, false);
  }

  function Rounds(c: Setting, j: Joint, rounds: seq<seq<Move>>): Joint
    decreases |rounds|
  {
    if rounds == [] then j else Rounds(c, Moves(c, j, rounds[0]), rounds[1..])
  }

  function EventRounds(c: Setting, j: Joint, rounds: seq<seq<Move>>): (es: seq<seq<T.Event>>)
    ensures |es| == |rounds|
    decreases |rounds|
  {
    if rounds == [] then [] else [EventsOf(c, j, rounds[0])] + EventRounds(c, Moves(c, j, rounds[0]), rounds[1..])
  }

  ghost predicate AllFair(es: seq<seq<T.Event>>, kind: T.Kind) {
    forall i :: 0 <= i < |es| ==> V.FairRound(es[i], kind)
  }

  lemma RoundsMore(d: T.Defaults, w: T.World, es: seq<T.Event>, rest: seq<seq<T.Event>>, kind: T.Kind)
    ensures V.ExecRounds(d, w, [es] + rest) == V.ExecRounds(d, T.Exec(d, w, es), rest)
    ensures V.FairRound(es, kind) && AllFair(rest, kind) ==> AllFair([es] + rest, kind)
  {
    hide T.Exec, V.FairRound;
    assert ([es] + rest)[1..] == rest;
  }

  lemma {:induction false} RoundsSimulate(c: Setting, j: Joint, rounds: seq<seq<Move>>, kind: T.Kind)
    requires Coupled(j) && V.Ok(j.world) && forall i :: 0 <= i < |rounds| ==> FairMoves(rounds[i], kind)
    ensures var es := EventRounds(c, j, rounds);
            && Coupled(Rounds(c, j, rounds)) && Rounds(c, j, rounds).world == V.ExecRounds(c.d, j.world, es)
            && AllFair(es, kind)
    decreases |rounds|
  {
    if rounds != [] {
      hide Coupled, Moves, EventsOf, V.FairRound, FairMoves, R.Sound, T.Exec, V.ExecRounds, AllFair;
      assert FairMoves(rounds[0], kind);
      FairMovesFair(c, j, rounds[0], kind);
      var es, j' := EventsOf(c, j, rounds[0]), Moves(c, j, rounds[0]);
      RoundStaysOk(c, j.world, es, kind);
      RoundsSimulate(c, j', rounds[1..], kind);
      RoundsMore(c.d, j.world, es, EventRounds(c, j', rounds[1..]), kind);
    }
  }

  lemma RoundStaysOk(c: Setting, w: T.World, es: seq<T.Event>, kind: T.Kind)
    requires V.Ok(w) && V.FairRound(es, kind)
    ensures V.Ok(T.Exec(c.d, w, es))
  {
    V.Drain(c.d, w, es, kind);
  }

  function MetaOf(cr: Option<Resource>): Option<Meta> {
    if cr.None? then None else Some(cr.value.meta)
  }

  /** A child is stored and not terminating when its section is on, and gone when not. */
  predicate AsWanted(stored: Option<Meta>, on: bool) {
    if on then stored.Some? && !stored.value.deleting else stored.None?
  }

  /** Convergence of the operator: after any past of the protocol, four fair rounds of
      parent passes and passes of the three child controllers, in any order and with
      any further failing passes of children in between, leave each child stored and
      not terminating exactly when its section is enabled, and gone when it is not. */
  lemma OperatorConverges(c: Setting, w: T.World, past: seq<T.Event>, j: Joint, rounds: seq<seq<Move>>, kind: T.Kind)
    requires R.Sound(w) && j.world == T.Exec(c.d, w, past)
    requires TelemetryReadiness.Working(j.world) && Coupled(j)
    requires |rounds| >= 4 && forall i :: 0 <= i < |rounds| ==> FairMoves(rounds[i], kind)
    ensures var r := Rounds(c, j, rounds);
            var t := j.world.parent.value.spec;
            && r.world.parent.Some? && r.world.parent.value.spec == t
            && (kind == T.Autoscalings ==> AsWanted(MetaOf(r.aodh.cr), t.autoscalingEnabled))
            && (kind == T.Ceilometers ==> AsWanted(MetaOf(r.ceilometer.cr), t.ceilometerEnabled))
            && (kind == T.MetricStorages ==>
                  AsWanted(if r.storage.None? then None else Some(r.storage.value.meta), t.metricStorageEnabled))
  {
    hide T.Exec, V.ExecRounds, V.FairRound, FairMoves, R.Sound, Rounds, EventRounds;
    R.RunSound(c.d, w, past);
    RoundsSimulate(c, j, rounds, kind);
    V.ParentChildConverges(c.d, w, past, EventRounds(c, j, rounds), kind);
  }
}
