/** MetricStorage: watches that are registered while reconciling and outlive the
    passes, and the passes themselves. */
module Watches {
  import opened Conditions
  import opened Cluster
  import A = Admission
  import B = Builders

  const MONITORING_STACKS := "monitoringstacks.monitoring.rhobs"
  const SERVICE_MONITORS := "servicemonitors.monitoring.rhobs"
  const NODE_SETS := "openstackdataplanenodesets.dataplane.openstack.org"
  const SCRAPE_CONFIGS := "scrapeconfigs.monitoring.rhobs"

  /** The order in which a pass registers its watches. */
  function WatchOrder(): (names: seq<string>)
    ensures |names| == 4
    ensures forall i, j :: 0 <= i < j < 4 ==> names[i] != names[j]
  {
    assert |MONITORING_STACKS| == 33 && |SERVICE_MONITORS| == 32 && |NODE_SETS| == 50 && |SCRAPE_CONFIGS| == 30;
    [MONITORING_STACKS, SERVICE_MONITORS, NODE_SETS, SCRAPE_CONFIGS]
  }

  const METRIC_STORAGE_CONDS: set<Cond> := {MonitoringStackReady, ServiceMonitorReady, ScrapeConfigReady, NodeSetReady}

  datatype MetricStorage = MetricStorage(meta: Meta, spec: A.MetricStorageSpec, conditions: Option<Conds>)

  /** The answers that one pass gets. `stackStatus` are the statuses of the conditions
      of the MonitoringStack, True or not. */
  datatype Oracle = Oracle(
    fetchFails: bool,
    env: seq<ObjectEvent>,
    crdMissing: string -> bool,
    watchFails: string -> bool,
    stackFails: bool,
    parse: B.Quantities,
    stackStatus: seq<bool>,
    monitorFails: bool,
    targetsFail: bool,
    scrapeFails: bool,
    nilReady: bool,
    patchMeta: bool,
    patchStatus: bool)

  datatype Result = Result(requeue: bool, failed: bool)

  const DONE := Result(false, false)

  /** The Watching slice of the reconciler, the successful Watch calls that it made,
      and the condition list of the instance. */
  datatype State = State(watching: seq<string>, registered: seq<string>, conds: Conds)

  datatype Flow = Next(state: State) | Stop(state: State, result: Result)

  // ---------------------------------------------------------------- one pass

  /** ensureWatches: the new slices, and whether it failed. */
  function EnsureWatch(o: Oracle, name: string, s: State): (State, bool) {
    if name in s.watching then (s, false)
    else if o.crdMissing(name) || o.watchFails(name) then (s, true)
    else (s.(watching := s.watching + [name], registered := s.registered + [name]), false)
  }

  function Mark(s: State, c: Cond, v: CondStatus): State {
    s.(conds := s.conds[c := v])
  }

  /** A watch that must be there before the pass goes on. */
  function Watched(o: Oracle, name: string, c: Cond, s: State): Flow {
    var (s', failed) := EnsureWatch(o, name, s);
    if failed then Stop(Mark(s', c, False), Result(true, false)) else Next(s')
  }

  /** The verdict on the conditions of the MonitoringStack: the first that is not
      True marks ours False; none at all leaves ours as it is. */
  function StackVerdict(s: State, status: seq<bool>): State {
    if false in status then Mark(s, MonitoringStackReady, False)
    else if status == [] then s
    else Mark(s, MonitoringStackReady, True)
  }

  /** The stages of reconcileNormal, each behind the one before it. */
  function DeployStack(o: Oracle, spec: A.MetricStorageSpec, s: State): Flow {
    match Watched(o, MONITORING_STACKS, MonitoringStackReady, s)
    case Stop(s', r) => Stop(s', r)
    case Next(s') =>
      if B.Build(spec, o.parse).Err? || o.stackFails then Stop(s', Result(false, true))
      else Next(StackVerdict(s', o.stackStatus))
  }

  function DeployMonitor(o: Oracle, s: State): Flow {
    match Watched(o, SERVICE_MONITORS, ServiceMonitorReady, s)
    case Stop(s', r) => Stop(s', r)
    case Next(s') =>
      if o.monitorFails then Stop(s', Result(false, true)) else Next(Mark(s', ServiceMonitorReady, True))
  }

  function WatchNodeSets(o: Oracle, s: State): Flow {
    match Watched(o, NODE_SETS, NodeSetReady, s)
    case Stop(s', r) => Stop(s', r)
    case Next(s') => Next(Mark(s', NodeSetReady, True))
  }

  function DeployScrapeConfig(o: Oracle, s: State): Flow {
    match Watched(o, SCRAPE_CONFIGS, ScrapeConfigReady, s)
    case Stop(s', r) => Stop(s', r)
    case Next(s') =>
      if o.targetsFail || o.scrapeFails then Stop(s', Result(false, true)) else Next(Mark(s', ScrapeConfigReady, True))
  }

  predicate BothNil(spec: A.MetricStorageSpec) {
    spec.custom.None? && spec.monitoringStack.None?
  }

  function Normal(o: Oracle, spec: A.MetricStorageSpec, s: State): Flow {
    if BothNil(spec) then Stop(Mark(s, MonitoringStackReady, False), DONE)
    else
      var f := DeployStack(o, spec, s);
      if f.Stop? then f else
      var f := DeployMonitor(o, f.state);
      if f.Stop? then f else
      var f := WatchNodeSets(o, f.state);
      if f.Stop? then f else DeployScrapeConfig(o, f.state)
  }

  /** What users do to the stored object. */
  datatype ObjectEvent = Edits(spec: A.MetricStorageSpec) | Deletes | Recreates(spec: A.MetricStorageSpec)

  function PutMeta(m: MetricStorage, meta: Meta): Option<MetricStorage> {
    if Settle(meta).None? then None else Some(m.(meta := meta))
  }

  function ObjectAct(m: Option<MetricStorage>, e: ObjectEvent): Option<MetricStorage> {
    match e
    case Edits(spec) => if m.None? then m else Some(m.value.(spec := spec))
    case Deletes => if m.None? then m else PutMeta(m.value, m.value.meta.(deleting := true))
    case Recreates(spec) => if m.Some? then m else Some(MetricStorage(Meta(false, false, false), spec, None))
  }

  function ObjectActs(m: Option<MetricStorage>, es: seq<ObjectEvent>): Option<MetricStorage>
    decreases |es|
  {
    if es == [] then m else ObjectActs(ObjectAct(m, es[0]), es[1..])
  }

  /** The end of a pass: the stored object, what Reconcile returns, whether there was
      an object to work on, whether the work was done, and whether the deferred patch
      had something to write and failed. */
  datatype Outcome = Outcome(
    stored: Option<MetricStorage>, result: Result, worked: bool, completed: bool, patchFailed: bool)

  function Refreshed(o: Oracle, c: Option<Conds>): Option<Conds> {
    match c
    case None => if o.nilReady then Some(map[Ready := True]) else None
    case Some(conds) => Some(WithReady(conds))
  }

  /** The deferred patch of finalizer and conditions onto whatever has the name now. */
  function Patched(o: Oracle, before: MetricStorage, ours: bool, conds: Option<Conds>, now: Option<MetricStorage>)
    : Option<MetricStorage>
  {
    if now.None? then None
    else
      var m := if o.patchMeta && ours != before.meta.ours
               then PutMeta(now.value, now.value.meta.(ours := ours)) else now;
      if m.None? || !o.patchStatus || conds == before.conditions then m else Some(m.value.(conditions := conds))
  }

  predicate PatchFails(o: Oracle, before: MetricStorage, ours: bool, conds: Option<Conds>, now: Option<MetricStorage>) {
    || (ours != before.meta.ours && (!o.patchMeta || now.None?))
    || (conds != before.conditions && (!o.patchStatus || Patched(o, before, ours, conds, now).None?))
  }

  /** The deferred function; users may have acted since the read, and its error is
      dropped. */
  function Finish(
    o: Oracle, before: MetricStorage, ours: bool, conds: Option<Conds>, r: Result, completed: bool): Outcome
  {
    var updated := Refreshed(o, conds);
    var now := ObjectActs(Some(before), o.env);
    Outcome(Patched(o, before, ours, updated, now), r, true, completed, PatchFails(o, before, ours, updated, now))
  }

  predicate AddsFinalizer(m: MetricStorage) {
    !m.meta.deleting && !m.meta.ours
  }

  /** The slices after a pass, and its outcome. */
  datatype Passed = Passed(watching: seq<string>, registered: seq<string>, out: Outcome)

  /** Reconcile, on an object that exists. */
  function Body(o: Oracle, m: MetricStorage, watching: seq<string>, registered: seq<string>): Passed {
    if AddsFinalizer(m) then
      Passed(watching, registered, Finish(o, m, true, m.conditions, DONE, false))
    else if m.conditions.None? then
      Passed(watching, registered, Finish(o, m, m.meta.ours, Some(AllUnknown(METRIC_STORAGE_CONDS)), DONE, false))
    else if m.meta.deleting then
      Passed(watching, registered, Finish(o, m, false, m.conditions, DONE, true))
    else
      match Normal(o, m.spec, State(watching, registered, m.conditions.value))
      case Next(s) => Passed(s.watching, s.registered, Finish(o, m, true, Some(s.conds), DONE, true))
      case Stop(s, r) => Passed(s.watching, s.registered, Finish(o, m, true, Some(s.conds), r, false))
  }

  /** One Reconcile call. */
  function Pass(o: Oracle, m: Option<MetricStorage>, watching: seq<string>, registered: seq<string>): Passed {
    if o.fetchFails then Passed(watching, registered, Outcome(m, Result(false, true), false, false, false))
    else if m.None? then Passed(watching, registered, Outcome(m, DONE, false, false, false))
    else Body(o, m.value, watching, registered)
  }

  // ---------------------------------------------------------------- the watches over whole runs

  /** A pass of the reconciler over one of its objects, in any state. */
  datatype Event = Event(o: Oracle, m: Option<MetricStorage>)

  /** The slices after a run of passes of one process, over any objects. */
  function Run(es: seq<Event>): (seq<string>, seq<string>)
    decreases |es|
  {
    if es == [] then ([], [])
    else
      var (w, r) := Run(es[..|es| - 1]);
      var e := es[|es| - 1];
      var p := Pass(e.o, e.m, w, r);
      (p.watching, p.registered)
  }

  /** The slices are the first n watches of the order. */
  predicate Registered(s: State, n: nat) {
    n <= 4 && s.watching == WatchOrder()[..n] && s.registered == s.watching
  }

  /** A watch that is reached with the ones before it registered. */
  lemma WatchedKeeps(o: Oracle, i: nat, c: Cond, s: State, n: nat) returns (m: nat)
    requires i < 4 && i <= n && Registered(s, n)
    ensures var f := Watched(o, WatchOrder()[i], c, s);
            Registered(f.state, m) && n <= m && (f.Next? ==> i + 1 <= m)
  {
    hide WatchOrder;
    var name := WatchOrder()[i];
    if i < n {
      assert name == WatchOrder()[..n][i];
      m := n;
    } else {
      assert name !in WatchOrder()[..n];
      var (s', failed) := EnsureWatch(o, name, s);
      m := if failed then n else n + 1;
      assert WatchOrder()[..n + 1] == WatchOrder()[..n] + [name];
    }
  }

  lemma NormalKeeps(o: Oracle, spec: A.MetricStorageSpec, s: State, n: nat) returns (m: nat)
    requires Registered(s, n)
    ensures Registered(Normal(o, spec, s).state, m) && n <= m
  {
    hide Watched, WatchOrder;
    m := n;
    if BothNil(spec) { return; }
    NamesInOrder();
    m := WatchedKeeps(o, 0, MonitoringStackReady, s, m);
    var f := DeployStack(o, spec, s);
    if f.Stop? { return; }
    m := WatchedKeeps(o, 1, ServiceMonitorReady, f.state, m);
    f := DeployMonitor(o, f.state);
    if f.Stop? { return; }
    m := WatchedKeeps(o, 2, NodeSetReady, f.state, m);
    f := WatchNodeSets(o, f.state);
    if f.Stop? { return; }
    m := WatchedKeeps(o, 3, ScrapeConfigReady, f.state, m);
  }

  lemma NamesInOrder()
    ensures var w := WatchOrder();
            w[0] == MONITORING_STACKS && w[1] == SERVICE_MONITORS && w[2] == NODE_SETS && w[3] == SCRAPE_CONFIGS
  {
  }

  /** The watches of a process, over any run of passes for any objects: always a
      prefix of the fixed order, exactly the successful Watch calls, no duplicates. */
  lemma {:induction false} WatchesFollowOrder(es: seq<Event>) returns (n: nat)
    ensures n <= 4
    ensures Run(es).0 == WatchOrder()[..n] && Run(es).1 == Run(es).0
    ensures var w := Run(es).0; forall i, j :: 0 <= i < j < |w| ==> w[i] != w[j]
    decreases |es|
  {
    hide Normal, WatchOrder;
    n := 0;
    if es != [] {
      n := WatchesFollowOrder(es[..|es| - 1]);
      n := LastPass(es, n);
    }
  }

  lemma LastPass(es: seq<Event>, n: nat) returns (m: nat)
    requires es != [] && n <= 4
    requires var r := Run(es[..|es| - 1]); r.0 == WatchOrder()[..n] && r.1 == r.0
    ensures n <= m <= 4 && Run(es).0 == WatchOrder()[..m] && Run(es).1 == Run(es).0
  {
    hide Normal, WatchOrder;
    var (w, r) := Run(es[..|es| - 1]);
    var e := es[|es| - 1];
    m := n;
    if !e.o.fetchFails && e.m.Some? && e.m.value.conditions.Some? {
      var x := e.m.value;
      if x.meta.ours && !x.meta.deleting {
        m := NormalKeeps(e.o, x.spec, State(w, r, x.conditions.value), n);
      }
    }
  }

  /** They only grow: what one run registered, every continuation of it keeps. */
  lemma {:induction false} WatchesOnlyGrow(es: seq<Event>, k: nat)
    requires k <= |es|
    ensures Run(es[..k]).0 <= Run(es).0
    decreases |es|
  {
    hide Normal, WatchOrder;
    if k == |es| {
      assert es[..k] == es;
    } else {
      var before := es[..|es| - 1];
      assert es[..k] == before[..k];
      WatchesOnlyGrow(before, k);
      var n := WatchesFollowOrder(before);
      var m := LastPass(es, n);
      assert WatchOrder()[..n] == WatchOrder()[..m][..n];
    }
  }

  // ---------------------------------------------------------------- wake-ups

  /** The pass left a changed object behind, which enqueues it again. */
  predicate Changed(before: MetricStorage, stored: Option<MetricStorage>) {
    stored.Some? && (stored.value.conditions != before.conditions || stored.value.meta.ours != before.meta.ours)
  }

  /** A pass that ends without a requeue or an error in the middle of its work either
      has something new to persist or waits for one of the two stacks to be set. */
  lemma QuietNormal(o: Oracle, spec: A.MetricStorageSpec, s: State)
    ensures var f := Normal(o, spec, s);
            f.Stop? && f.result == DONE ==> BothNil(spec) && f.state.conds == s.conds[MonitoringStackReady := False]
  {
    hide EnsureWatch;
  }

  /** Whatever users do meanwhile: a pass that asks for nothing and reports nothing,
      and whose patch succeeded, did all its work, or left a changed object, or is the
      wait for one of the two stacks to be set. */
  lemma MetricStorageWakeUp(o: Oracle, m: MetricStorage, watching: seq<string>, registered: seq<string>)
    requires var out := Pass(o, Some(m), watching, registered).out; out.worked && out.result == DONE && !out.patchFailed
    ensures var out := Pass(o, Some(m), watching, registered).out;
            out.completed || Changed(m, out.stored) || BothNil(m.spec)
  {
    hide Normal, ObjectActs, WithReady;
    if m.conditions.Some? {
      QuietNormal(o, m.spec, State(watching, registered, m.conditions.value));
    }
  }

  /** Which part of the deferred patch has to be accepted for the object to change. */
  predicate Accepted(o: Oracle, m: MetricStorage) {
    if AddsFinalizer(m) then o.patchMeta || (o.patchStatus && Refreshed(o, m.conditions) != m.conditions)
    else o.patchStatus && (m.conditions.Some? ==> WithReady(Waiting(m.conditions.value)) != m.conditions.value)
  }

  /** The list of a pass that waits for a stack. */
  function Waiting(c: Conds): Conds {
    c[MonitoringStackReady := False]
  }

  /** Users do not delete the object and create it anew in the middle of the pass. */
  predicate NoRecreation(es: seq<ObjectEvent>) {
    forall i :: 0 <= i < |es| ==> !es[i].Recreates?
  }

  lemma {:induction false} ObjectActsKeep(m: Option<MetricStorage>, es: seq<ObjectEvent>)
    requires NoRecreation(es)
    ensures var r := ObjectActs(m, es);
            r.Some? ==> m.Some? && r.value.conditions == m.value.conditions && r.value.meta.ours == m.value.meta.ours
    decreases |es|
  {
    if es != [] {
      assert !es[0].Recreates?;
      ObjectActsKeep(ObjectAct(m, es[0]), es[1..]);
    }
  }

  /** The exact condition, whatever users do to the object short of replacing it: a pass
      that returns nothing and did not complete leaves it changed if and only if the
      part of its patch that has something to write is accepted; a wait that is already
      recorded has nothing. */
  lemma MetricStorageWakeUpExactly(o: Oracle, m: MetricStorage, watching: seq<string>, registered: seq<string>)
    requires NoRecreation(o.env)
    requires var out := Pass(o, Some(m), watching, registered).out; out.worked && out.result == DONE && !out.completed
    ensures var stored := Pass(o, Some(m), watching, registered).out.stored;
            stored.Some? ==> (Changed(m, stored) <==> Accepted(o, m))
  {
    hide Normal, WithReady, ObjectActs;
    ObjectActsKeep(Some(m), o.env);
    if m.conditions.Some? {
      QuietNormal(o, m.spec, State(watching, registered, m.conditions.value));
    }
  }

  /** Lost wake-ups exist for every new MetricStorage: when neither part of the patch is
      accepted, the first pass returns nothing, did not complete and changed nothing. */
  lemma MetricStorageLostWakeUp(o: Oracle, m: MetricStorage, watching: seq<string>, registered: seq<string>)
    requires o.env == [] && !o.fetchFails && AddsFinalizer(m) && !Accepted(o, m)
    ensures var out := Pass(o, Some(m), watching, registered).out;
            out.worked && out.result == DONE && !out.completed && out.patchFailed && !Changed(m, out.stored)
  {
    hide Normal, WithReady;
  }

  /** The wait cannot happen to an object that went through admission. */
  lemma AdmittedIsNotNil(spec: A.MetricStorageSpec)
    ensures !BothNil(A.DefaultMetricStorage(spec))
  {
  }
}
