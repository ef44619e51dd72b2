/** The Telemetry controller and its three children.

    The parent creates, patches or deletes one child per section of its spec while
    the children run their own passes. Everything that a parent pass can meet is
    chosen by an oracle: failing calls, calls that fail although they took effect,
    and whatever the children and users do in the middle of the pass. */
module TelemetryParent {
  import opened Conditions
  import opened Cluster
  import A = Admission

  datatype Kind = Autoscalings | Ceilometers | MetricStorages

  function CondOf(kind: Kind): Cond {
    match kind
    case Autoscalings => AutoscalingReady
    case Ceilometers => CeilometerReady
    case MetricStorages => MetricStorageReady
  }

  const TELEMETRY_CONDS: set<Cond> := {AutoscalingReady, CeilometerReady, MetricStorageReady}

  /** The order of reconcileNormal. */
  const ORDER: seq<Kind> := [Autoscalings, Ceilometers, MetricStorages]

  datatype Owner = Nobody | Us | Another

  datatype Payload =
    | AutoscalingPayload(autoscaling: A.AutoscalingSpec)
    | CeilometerPayload(ceilometer: A.CeilometerSpec)
    | StoragePayload(storage: A.MetricStorageSpec)

  /** A stored child: `initialised` says that its condition list is there, `ready`
      that its Ready condition is True. */
  datatype Child = Child(meta: Meta, initialised: bool, ready: bool, owner: Owner, spec: Payload)

  datatype Parent = Parent(meta: Meta, spec: A.TelemetrySpec, conditions: Option<Conds>)

  /** `copies` remembers the custom stacks handed to the current MetricStorage child
      since it was created; it is bookkeeping that no step looks at. */
  datatype World = World(parent: Option<Parent>, children: map<Kind, Child>, copies: seq<Option<A.CustomStack>>)

  /** The image defaults of the children's webhooks. */
  datatype Defaults = Defaults(ceilometer: A.CeilometerImages, aodh: A.AodhImages)

  // ---------------------------------------------------------------- children

  predicate Enabled(t: A.TelemetrySpec, kind: Kind) {
    match kind
    case Autoscalings => t.autoscalingEnabled
    case Ceilometers => t.ceilometerEnabled
    case MetricStorages => t.metricStorageEnabled
  }

  const NO_STORAGE := A.MetricStorageSpec(None, None)

  /** The mutate functions of the three sections. */
  function CopyInto(t: A.TelemetrySpec, kind: Kind, existing: Option<Child>): Payload {
    match kind
    case Autoscalings => AutoscalingPayload(t.autoscaling)
    case Ceilometers => CeilometerPayload(t.ceilometer)
    case MetricStorages =>
      var current := if existing.Some? && existing.value.spec.StoragePayload? then existing.value.spec.storage
                     else NO_STORAGE;
      StoragePayload(A.CopyMetricStorage(t.metricStorage, current))
  }

  /** The webhook of the child. */
  function Admit(d: Defaults, p: Payload): Payload {
    match p
    case AutoscalingPayload(a) => AutoscalingPayload(a.(images := A.FillAodh(d.aodh, a.images)))
    case CeilometerPayload(c) => CeilometerPayload(c.(images := A.FillCeilometer(d.ceilometer, c.images)))
    case StoragePayload(s) => StoragePayload(A.DefaultMetricStorage(s))
  }

  function Put(w: World, kind: Kind, c: Option<Child>): World {
    w.(children := if c.None? then w.children - {kind} else w.children[kind := c.value],
       copies := if kind == MetricStorages && c.None? then [] else w.copies)
  }

  function Get(w: World, kind: Kind): Option<Child> {
    if kind in w.children then Some(w.children[kind]) else None
  }

  function SettleChild(c: Child): Option<Child> {
    if Settle(c.meta).None? then None else Some(c)
  }

  /** What a pass of a child amounts to: whether the metadata part and the status part
      of its deferred patch are accepted, whether a deletion goes through to its end,
      what is persisted while the condition list is still nil, and the readiness that
      it computes. */
  datatype Effect = Effect(meta: bool, status: bool, finishes: bool, nilReady: bool, ready: bool)

  /** A pass in which nothing fails. */
  predicate GoesThrough(x: Effect) {
    x.meta && x.status && x.finishes
  }

  /** A pass of a child, failing or not, as its parent sees it. It takes the finalizer,
      or sets up the condition list, or lets go of the finalizer at the end of a
      deletion, or recomputes the readiness, each as far as its patch is accepted. */
  function ChildPass(c: Child, x: Effect): Option<Child> {
    var ready := if x.status then x.ready else c.ready;
    if !c.meta.deleting && !c.meta.ours then
      Some(c.(meta := c.meta.(ours := x.meta),
              initialised := c.initialised || (x.status && x.nilReady), ready := ready))
    else if !c.initialised then Some(c.(initialised := x.status, ready := ready))
    else if c.meta.deleting && x.finishes && x.meta then SettleChild(c.(meta := c.meta.(ours := false), ready := ready))
    else Some(c.(ready := ready))
  }

  /** What happens to the children outside the parent's passes. */
  datatype ChildEvent =
    | Passes(kind: Kind, effect: Effect)
    | UserDeletes(kind: Kind)
    | UserCreates(kind: Kind, spec: Payload)

  function Happens(d: Defaults, w: World, e: ChildEvent): World {
    var c := Get(w, e.kind);
    match e
    case Passes(kind, effect) => if c.None? then w else Put(w, kind, ChildPass(c.value, effect))
    case UserDeletes(kind) => if c.None? then w else Put(w, kind, Doomed(c.value))
    case UserCreates(kind, spec) =>
      if c.Some? then w
      else
        var admitted := Admit(d, spec);
        Logged(Put(w, kind, Some(Child(Meta(false, false, false), false, false, Nobody, admitted))), kind,
               if admitted.StoragePayload? then admitted.storage.custom else None, true)
  }

  function Happen(d: Defaults, w: World, es: seq<ChildEvent>): World
    decreases |es|
  {
    if es == [] then w else Happen(d, Happens(d, w, es[0]), es[1..])
  }

  function Doomed(c: Child): Option<Child> {
    SettleChild(c.(meta := c.meta.(deleting := true)))
  }

  function Logged(w: World, kind: Kind, custom: Option<A.CustomStack>, created: bool): World {
    if kind != MetricStorages then w else w.(copies := if created then [custom] else w.copies + [custom])
  }

  /** What users do to the parent. */
  datatype ParentEvent = Edits(spec: A.TelemetrySpec) | Deletes | Recreates(spec: A.TelemetrySpec)

  function ParentAct(p: Option<Parent>, e: ParentEvent): Option<Parent> {
    match e
    case Edits(spec) => if p.None? then p else Some(p.value.(spec := spec))
    case Deletes => if p.None? then p else PutParentMeta(p, p.value.meta.(deleting := true))
    case Recreates(spec) => if p.Some? then p else Some(Parent(Meta(false, false, false), spec, None))
  }

  function ParentActs(p: Option<Parent>, es: seq<ParentEvent>): Option<Parent>
    decreases |es|
  {
    if es == [] then p else ParentActs(ParentAct(p, es[0]), es[1..])
  }

  // ---------------------------------------------------------------- one section

  datatype Oracle = Oracle(
    fetchFails: bool,
    env: Kind -> seq<ChildEvent>,
    getFails: Kind -> bool,
    deleteFails: Kind -> bool,
    applyFails: Kind -> bool,
    took: Kind -> bool,
    parentEnv: seq<ParentEvent>,
    nilReady: bool,
    patchMeta: bool,
    patchStatus: bool)

  /** The in-memory side of a pass: the world, the condition list, the children as
      CreateOrPatch returned them. */
  datatype Local = Local(world: World, conds: Conds, seen: map<Kind, Child>)

  datatype Step = Step(local: Local, failed: bool)

  /** ensureDeleted. */
  function EnsureDeleted(o: Oracle, kind: Kind, w: World): (World, bool) {
    if o.getFails(kind) then (w, true)
    else
      var c := Get(w, kind);
      if c.None? || c.value.meta.deleting then (w, false)
      else if o.deleteFails(kind) then (if o.took(kind) then Put(w, kind, Doomed(c.value)) else w, true)
      else (Put(w, kind, Doomed(c.value)), false)
  }

  /** The child that CreateOrPatch leaves. */
  function Applied(d: Defaults, t: A.TelemetrySpec, kind: Kind, c: Option<Child>): Child {
    var spec := Admit(d, CopyInto(t, kind, c));
    if c.None? then Child(Meta(false, false, false), false, false, Us, spec)
    else c.value.(owner := Us, spec := spec)
  }

  function Apply(d: Defaults, t: A.TelemetrySpec, kind: Kind, w: World): World {
    var c := Get(w, kind);
    Logged(Put(w, kind, Some(Applied(d, t, kind, c))), kind, t.metricStorage.custom, c.None?)
  }

  /** CreateOrPatch; the mutate function fails on a child of another controller.
      The answer is the child as the server returned it, None on an error. */
  function CreateOrPatch(d: Defaults, o: Oracle, t: A.TelemetrySpec, kind: Kind, w: World): (World, Option<Child>) {
    var c := Get(w, kind);
    if c.Some? && c.value.owner == Another then (w, None)
    else if o.applyFails(kind) then (if o.took(kind) then Apply(d, t, kind, w) else w, None)
    else (Apply(d, t, kind, w), Some(Applied(d, t, kind, c)))
  }

  function ReadyStatus(c: Child): CondStatus {
    if c.ready then True else False
  }

  /** reconcileAutoscaling, reconcileCeilometer and reconcileMetricStorage. */
  function Section(d: Defaults, o: Oracle, t: A.TelemetrySpec, kind: Kind, l: Local): Step {
    var w := Happen(d, l.world, o.env(kind));
    var cond := CondOf(kind);
    if !Enabled(t, kind) then
      var (w', failed) := EnsureDeleted(o, kind, w);
      Step(Local(w', if failed then l.conds else l.conds - {cond}, l.seen), failed)
    else
      var (w', c) := CreateOrPatch(d, o, t, kind, w);
      if c.None? then Step(Local(w', l.conds[cond := False], l.seen), true)
      else Step(Local(w', l.conds[cond := ReadyStatus(c.value)], l.seen[kind := c.value]), false)
  }

  function Sections(d: Defaults, o: Oracle, t: A.TelemetrySpec, kinds: seq<Kind>, l: Local): Step
    decreases |kinds|
  {
    if kinds == [] then Step(l, false)
    else
      var s := Section(d, o, t, kinds[0], l);
      if s.failed then s else Sections(d, o, t, kinds[1..], s.local)
  }

  // ---------------------------------------------------------------- one pass

  /** `failed` is the error that Reconcile returns, `completed` says that the pass
      ran to the end of its work. */
  datatype Outcome = Outcome(world: World, conds: Option<Conds>, seen: map<Kind, Child>, failed: bool, completed: bool)

  function Refreshed(o: Oracle, c: Option<Conds>): Option<Conds> {
    match c
    case None => if o.nilReady then Some(map[Ready := True]) else None
    case Some(conds) => Some(WithReady(conds))
  }

  function PutParentMeta(p: Option<Parent>, m: Meta): Option<Parent>
    requires p.Some?
  {
    if Settle(m).None? then None else Some(p.value.(meta := m))
  }

  /** The deferred patch of finalizer and conditions onto the stored object. */
  function Patched(
    o: Oracle, before: Parent, ours: bool, conds: Option<Conds>, stored: Option<Parent>): Option<Parent>
  {
    if stored.None? then None
    else
      var p := if o.patchMeta && ours != before.meta.ours
               then PutParentMeta(stored, stored.value.meta.(ours := ours)) else stored;
      if p.None? || !o.patchStatus || conds == before.conditions then p else Some(p.value.(conditions := conds))
  }

  predicate PatchFails(o: Oracle, before: Parent, ours: bool, conds: Option<Conds>, stored: Option<Parent>) {
    || (ours != before.meta.ours && (!o.patchMeta || stored.None?))
    || (conds != before.conditions && (!o.patchStatus || Patched(o, before, ours, conds, stored).None?))
  }

  function Finish(o: Oracle, before: Parent, ours: bool, conds: Option<Conds>, seen: map<Kind, Child>,
                  w: World, failed: bool, completed: bool): Outcome
  {
    var updated := Refreshed(o, conds);
    var stored := ParentActs(w.parent, o.parentEnv);
    Outcome(w.(parent := Patched(o, before, ours, updated, stored)), updated, seen,
            failed || PatchFails(o, before, ours, updated, stored), completed)
  }

  /** Reconcile, on an object that exists. */
  function Body(d: Defaults, o: Oracle, w: World, p: Parent): Outcome {
    if !p.meta.deleting && !p.meta.ours then
      Finish(o, p, true, p.conditions, map[], w, false, false)
    else if p.conditions.None? then
      Finish(o, p, p.meta.ours, Some(AllUnknown(TELEMETRY_CONDS)), map[], w, false, false)
    else if p.meta.deleting then
      Finish(o, p, false, p.conditions, map[], w, false, true)
    else
      var s := Sections(d, o, p.spec, ORDER, Local(w, p.conditions.value, map[]));
      Finish(o, p, true, Some(s.local.conds), s.local.seen, s.local.world, s.failed, !s.failed)
  }

  /** One Reconcile call: the world after it, its error, and what it did if there
      was an object to work on. */
  function Pass(d: Defaults, o: Oracle, w: World): (World, bool, Option<Outcome>) {
    if o.fetchFails then (w, true, None)
    else if w.parent.None? then (w, false, None)
    else
      var out := Body(d, o, w, w.parent.value);
      (out.world, out.failed, Some(out))
  }

  // ---------------------------------------------------------------- runs

  datatype Event = ParentPass(o: Oracle) | OnParent(p: ParentEvent) | OnChild(c: ChildEvent)

  function Exec1(d: Defaults, w: World, e: Event): World {
    match e
    case ParentPass(o) => Pass(d, o, w).0
    case OnParent(p) => w.(parent := ParentAct(w.parent, p))
    case OnChild(c) => Happens(d, w, c)
  }

  function Exec(d: Defaults, w: World, es: seq<Event>): World
    decreases |es|
  {
    if es == [] then w else Exec(d, Exec1(d, w, es[0]), es[1..])
  }
}
