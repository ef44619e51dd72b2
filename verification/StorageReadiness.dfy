/** What a MetricStorage pass does for every combination of answers, and when it leaves
    the resource Ready. */
module StorageReadiness {
  import opened Conditions
  import opened Watches
  import A = Admission
  import B = Builders

  /** The kind is watched already, or its definition is there and the watch succeeds. */
  predicate CanWatch(o: Oracle, watching: seq<string>, name: string) {
    name in watching || (!o.crdMissing(name) && !o.watchFails(name))
  }

  lemma WatchedExactly(o: Oracle, name: string, c: Cond, s: State)
    ensures var f := Watched(o, name, c, s);
            if CanWatch(o, s.watching, name)
            then && f.Next? && f.state.conds == s.conds
                 && (forall other :: other in f.state.watching <==> other in s.watching || other == name)
            else f == Stop(s.(conds := s.conds[c := False]), Result(true, false))
  {
  }

  // ---------------------------------------------------------------- when a pass goes on

  predicate StackDeployed(o: Oracle, spec: A.MetricStorageSpec) {
    B.Build(spec, o.parse).Ok? && !o.stackFails
  }

  /** The four deployments, in order: `Reached(n)` says that the first n went through. */
  predicate Reached(o: Oracle, spec: A.MetricStorageSpec, watching: seq<string>, n: nat) {
    && (spec.custom.Some? || spec.monitoringStack.Some?)
    && (n >= 1 ==> CanWatch(o, watching, MONITORING_STACKS) && StackDeployed(o, spec))
    && (n >= 2 ==> CanWatch(o, watching, SERVICE_MONITORS) && !o.monitorFails)
    && (n >= 3 ==> CanWatch(o, watching, NODE_SETS))
    && (n >= 4 ==> CanWatch(o, watching, SCRAPE_CONFIGS) && !o.targetsFail && !o.scrapeFails)
  }

  /** The entry of MonitoringStackReady after the verdict: False if some condition of the
      stack is not True, True if there are any and all are, and otherwise as before. */
  predicate Judged(status: seq<bool>, before: Conds, after: Conds) {
    && ((exists i :: 0 <= i < |status| && !status[i]) ==>
          MonitoringStackReady in after && after[MonitoringStackReady] == False)
    && (|status| > 0 && (forall i :: 0 <= i < |status| ==> status[i]) ==>
          MonitoringStackReady in after && after[MonitoringStackReady] == True)
    && (|status| == 0 ==> SameEntry(before, after, MonitoringStackReady))
  }

  predicate SameEntry(before: Conds, after: Conds, c: Cond) {
    (c in after <==> c in before) && (c in after && c in before ==> after[c] == before[c])
  }

  const MONITORED: set<Cond> := {MonitoringStackReady, ServiceMonitorReady, NodeSetReady, ScrapeConfigReady}

  lemma VerdictJudges(s: State, status: seq<bool>)
    ensures var r := StackVerdict(s, status);
            && Judged(status, s.conds, r.conds) && r.watching == s.watching
            && (forall c :: c != MonitoringStackReady ==> SameEntry(s.conds, r.conds, c))
  {
  }

  lemma StackStage(o: Oracle, spec: A.MetricStorageSpec, s: State)
    requires spec.custom.Some? || spec.monitoringStack.Some?
    ensures var f := DeployStack(o, spec, s);
            var name := MONITORING_STACKS;
            && (f.Next? <==> CanWatch(o, s.watching, name) && StackDeployed(o, spec))
            && (f.Next? ==> Judged(o.stackStatus, s.conds, f.state.conds))
            && (f.Next? ==> forall c :: c != MonitoringStackReady ==> SameEntry(s.conds, f.state.conds, c))
            && (f.Next? ==> forall other :: other in f.state.watching <==> other in s.watching || other == name)
            && (f.Stop? && CanWatch(o, s.watching, name) ==>
                  f.result == Result(false, true) && f.state.conds == s.conds)
            && (f.Stop? && !CanWatch(o, s.watching, name) ==>
                  f.result == Result(true, false) && f.state.conds == s.conds[MonitoringStackReady := False])
  {
    hide Watched, Judged, SameEntry, CanWatch, B.Build;
    WatchedExactly(o, MONITORING_STACKS, MonitoringStackReady, s);
    var f := Watched(o, MONITORING_STACKS, MonitoringStackReady, s);
    VerdictJudges(f.state, o.stackStatus);
  }

  /** A later stage: `c` is its condition, `fails` its own failure. */
  ghost predicate LaterStage(o: Oracle, name: string, c: Cond, fails: bool, s: State, f: Flow) {
    && (f.Next? <==> CanWatch(o, s.watching, name) && !fails)
    && (f.Next? ==> f.state.conds == s.conds[c := True])
    && (f.Next? ==> forall other :: other in f.state.watching <==> other in s.watching || other == name)
    && (f.Stop? && CanWatch(o, s.watching, name) ==> f.result == Result(false, true) && f.state.conds == s.conds)
    && (f.Stop? && !CanWatch(o, s.watching, name) ==>
          f.result == Result(true, false) && f.state.conds == s.conds[c := False])
  }

  lemma LaterStages(o: Oracle, s: State)
    ensures LaterStage(o, SERVICE_MONITORS, ServiceMonitorReady, o.monitorFails, s,
                       DeployMonitor(o, s))
    ensures LaterStage(o, NODE_SETS, NodeSetReady, false, s,
                       WatchNodeSets(o, s))
    ensures LaterStage(o, SCRAPE_CONFIGS, ScrapeConfigReady, o.targetsFail || o.scrapeFails, s,
                       DeployScrapeConfig(o, s))
  {
    hide Watched, CanWatch;
    WatchedExactly(o, SERVICE_MONITORS, ServiceMonitorReady, s);
    WatchedExactly(o, NODE_SETS, NodeSetReady, s);
    WatchedExactly(o, SCRAPE_CONFIGS, ScrapeConfigReady, s);
  }

  lemma NamesDiffer()
    ensures MONITORING_STACKS != SERVICE_MONITORS && MONITORING_STACKS != NODE_SETS
    ensures MONITORING_STACKS != SCRAPE_CONFIGS && SERVICE_MONITORS != NODE_SETS
    ensures SERVICE_MONITORS != SCRAPE_CONFIGS && NODE_SETS != SCRAPE_CONFIGS
  {
    var names := WatchOrder();
    NamesInOrder();
  }

  /** What a pass that went through its four deployments has written. */
  ghost predicate Deployed(status: seq<bool>, before: Conds, after: Conds) {
    && Judged(status, before, after)
    && ServiceMonitorReady in after && after[ServiceMonitorReady] == True
    && NodeSetReady in after && after[NodeSetReady] == True
    && ScrapeConfigReady in after && after[ScrapeConfigReady] == True
    && forall c :: c !in MONITORED ==> SameEntry(before, after, c)
  }

  /** How a pass that stops says so: a kind that cannot be watched makes its condition
      False and asks for a requeue, everything else is an error that leaves the
      conditions as they are; without any stack it waits, silently. */
  predicate StopsAs(
    o: Oracle, spec: A.MetricStorageSpec, watching: seq<string>, result: Result, c: Conds)
  {
    if !Reached(o, spec, watching, 0) then
      result == DONE && IsFalse(c, MonitoringStackReady)
    else if !Reached(o, spec, watching, 1) then
      Blames(CanWatch(o, watching, MONITORING_STACKS), result, c, MonitoringStackReady)
    else if !Reached(o, spec, watching, 2) then
      Blames(CanWatch(o, watching, SERVICE_MONITORS), result, c, ServiceMonitorReady)
    else if !Reached(o, spec, watching, 3) then
      Blames(false, result, c, NodeSetReady)
    else
      Blames(CanWatch(o, watching, SCRAPE_CONFIGS), result, c, ScrapeConfigReady)
  }

  predicate IsFalse(c: Conds, x: Cond) {
    x in c && c[x] == False
  }

  predicate Blames(watched: bool, result: Result, c: Conds, x: Cond) {
    if watched then result == Result(false, true) else result == Result(true, false) && IsFalse(c, x)
  }

  /** The stages behind the MonitoringStack. */
  function AfterStack(o: Oracle, s: State): Flow {
    var f := DeployMonitor(o, s);
    if f.Stop? then f else
    var f := WatchNodeSets(o, f.state);
    if f.Stop? then f else DeployScrapeConfig(o, f.state)
  }

  ghost predicate TailOutcome(o: Oracle, s: State, f: Flow) {
    var monitor := CanWatch(o, s.watching, SERVICE_MONITORS);
    var nodes := CanWatch(o, s.watching, NODE_SETS);
    var scrapes := CanWatch(o, s.watching, SCRAPE_CONFIGS);
    && (f.Next? <==> monitor && !o.monitorFails && nodes && scrapes && !o.targetsFail && !o.scrapeFails)
    && (f.Next? ==>
          f.state.conds == s.conds[ServiceMonitorReady := True][NodeSetReady := True][ScrapeConfigReady := True])
    && (f.Stop? ==>
          if !monitor || o.monitorFails then Blames(monitor, f.result, f.state.conds, ServiceMonitorReady)
          else if !nodes then Blames(false, f.result, f.state.conds, NodeSetReady)
          else Blames(scrapes, f.result, f.state.conds, ScrapeConfigReady))
  }

  lemma TailExactly(o: Oracle, s: State)
    ensures TailOutcome(o, s, AfterStack(o, s))
  {
    hide DeployMonitor, WatchNodeSets, DeployScrapeConfig, CanWatch;
    NamesDiffer();
    LaterStages(o, s);
    var f := DeployMonitor(o, s);
    if f.Next? {
      StillWatchable(o, s, f.state, SERVICE_MONITORS);
      LaterStages(o, f.state);
      var g := WatchNodeSets(o, f.state);
      if g.Next? {
        StillWatchable(o, f.state, g.state, NODE_SETS);
        LaterStages(o, g.state);
      }
    }
  }

  /** A MetricStorage pass goes through exactly when its four deployments do, and
      otherwise stops at the first that does not. */
  lemma NormalExactly(o: Oracle, spec: A.MetricStorageSpec, s: State)
    ensures var f := Normal(o, spec, s);
            && (f.Next? <==> Reached(o, spec, s.watching, 4))
            && (f.Next? ==> Deployed(o.stackStatus, s.conds, f.state.conds))
            && (f.Stop? ==> StopsAs(o, spec, s.watching, f.result, f.state.conds))
  {
    if !BothNil(spec) {
      assert Normal(o, spec, s) ==
        var f := DeployStack(o, spec, s); if f.Stop? then f else AfterStack(o, f.state);
      hide Normal, DeployStack, AfterStack, Judged, StackDeployed, TailOutcome, Deployed, CanWatch;
      NamesDiffer();
      StackStage(o, spec, s);
      var f := DeployStack(o, spec, s);
      if f.Next? {
        TailExactly(o, f.state);
        StackThenTail(o, spec, s, f.state, AfterStack(o, f.state));
      }
    }
  }

  /** Watching one more kind does not change which others can be watched. */
  lemma StillWatchable(o: Oracle, s: State, r: State, name: string)
    requires forall other :: other in r.watching <==> other in s.watching || other == name
    ensures forall other :: other != name ==> (CanWatch(o, r.watching, other) <==> CanWatch(o, s.watching, other))
  {
  }

  lemma StackThenTail(o: Oracle, spec: A.MetricStorageSpec, s: State, r: State, f: Flow)
    requires !BothNil(spec) && CanWatch(o, s.watching, MONITORING_STACKS) && StackDeployed(o, spec)
    requires forall other :: other in r.watching <==> other in s.watching || other == MONITORING_STACKS
    requires Judged(o.stackStatus, s.conds, r.conds)
    requires forall c :: c != MonitoringStackReady ==> SameEntry(s.conds, r.conds, c)
    requires TailOutcome(o, r, f)
    ensures f.Next? <==> Reached(o, spec, s.watching, 4)
    ensures f.Next? ==> Deployed(o.stackStatus, s.conds, f.state.conds)
    ensures f.Stop? ==> StopsAs(o, spec, s.watching, f.result, f.state.conds)
  {
    hide CanWatch, StackDeployed, Judged, Blames, Deployed, SameEntry;
    NamesDiffer();
    StillWatchable(o, s, r, MONITORING_STACKS);
    DeployedOver(o.stackStatus, s.conds, r.conds);
  }

  lemma DeployedOver(status: seq<bool>, before: Conds, judged: Conds)
    requires Judged(status, before, judged)
    requires forall c :: c != MonitoringStackReady ==> SameEntry(before, judged, c)
    ensures Deployed(status, before,
                     judged[ServiceMonitorReady := True][NodeSetReady := True][ScrapeConfigReady := True])
  {
    var after := judged[ServiceMonitorReady := True][NodeSetReady := True][ScrapeConfigReady := True];
    forall c | c !in MONITORED
      ensures SameEntry(before, after, c)
    {
      assert SameEntry(before, judged, c);
    }
  }

  // ---------------------------------------------------------------- whole passes

  /** A read that fails is reported, a missing object is not; either way nothing is done. */
  lemma NoPass(o: Oracle, m: Option<MetricStorage>, watching: seq<string>, registered: seq<string>)
    ensures var p := Pass(o, m, watching, registered);
            && (!p.out.worked <==> o.fetchFails || m.None?)
            && (!p.out.worked ==>
                  && p.watching == watching && p.registered == registered
                  && p.out.stored == m && p.out.result == Result(false, o.fetchFails) && !p.out.completed)
  {
    hide Normal, ObjectActs, WithReady;
  }

  /** Exactly when a MetricStorage pass completes. */
  lemma MetricStorageCompletesExactly(o: Oracle, m: MetricStorage, watching: seq<string>, registered: seq<string>)
    requires !o.fetchFails
    ensures Pass(o, Some(m), watching, registered).out.completed <==>
              m.conditions.Some? && (m.meta.deleting || (m.meta.ours && Reached(o, m.spec, watching, 4)))
  {
    hide Normal, Reached, WithReady, ObjectActs;
    if m.conditions.Some? {
      NormalExactly(o, m.spec, State(watching, registered, m.conditions.value));
    }
  }

  /** What an incomplete pass over a live MetricStorage returns, and what it leaves stored
      unless its patch fails or the object is recreated meanwhile. */
  lemma MetricStorageStops(o: Oracle, m: MetricStorage, watching: seq<string>, registered: seq<string>)
    requires !o.fetchFails && m.meta.ours && !m.meta.deleting && m.conditions.Some?
    ensures var out := Pass(o, Some(m), watching, registered).out;
            && (out.completed ==> out.result == DONE)
            && (!out.completed ==> exists c :: StopsAs(o, m.spec, watching, out.result, c))
            && (!out.completed && !out.patchFailed && out.stored.Some? && NoRecreation(o.env) ==>
                  && out.stored.value.conditions.Some?
                  && StopsAs(o, m.spec, watching, out.result, out.stored.value.conditions.value))
  {
    hide Normal, Reached, WithReady, ObjectActs, StopsAs;
    var s := State(watching, registered, m.conditions.value);
    NormalExactly(o, m.spec, s);
    if NoRecreation(o.env) { ObjectActsKeep(Some(m), o.env); }
    var f := Normal(o, m.spec, s);
    if f.Stop? {
      assert StopsAs(o, m.spec, watching, f.result, f.state.conds);
      StopsWithReady(o, m.spec, watching, f.result, f.state.conds);
    }
  }

  lemma StopsWithReady(o: Oracle, spec: A.MetricStorageSpec, watching: seq<string>, result: Result, c: Conds)
    requires StopsAs(o, spec, watching, result, c)
    ensures StopsAs(o, spec, watching, result, WithReady(c))
  {
    hide Reached, CanWatch;
  }

  /** The stack is up: it has conditions and all are True, or it has none and was up. */
  predicate StackUp(status: seq<bool>, before: Conds) {
    if |status| > 0 then forall i :: 0 <= i < |status| ==> status[i]
    else MonitoringStackReady in before ==> before[MonitoringStackReady] == True
  }

  lemma ReadyOverMonitored(status: seq<bool>, before: Conds, after: Conds)
    requires Deployed(status, before, after)
    ensures AllSubTrue(after) <==>
              StackUp(status, before) && forall c :: c in before && c !in MONITORED && c != Ready ==> before[c] == True
  {
    if AllSubTrue(after) {
      forall c | c in before && c !in MONITORED && c != Ready
        ensures before[c] == True
      {
        assert SameEntry(before, after, c);
      }
    } else {
      var c :| c in after && c != Ready && after[c] != True;
      if c !in MONITORED { assert SameEntry(before, after, c); }
    }
  }

  /** After a completed pass over a live MetricStorage, whose patch succeeded and which
      was not recreated meanwhile, what is stored says what the pass saw:
      MonitoringStackReady follows the stack, the other three are True, and the
      resource is Ready exactly when the stack is up and every condition that the pass
      does not write was True. */
  lemma MetricStorageReadyExactly(o: Oracle, m: MetricStorage, watching: seq<string>, registered: seq<string>)
    requires !o.fetchFails && m.meta.ours && !m.meta.deleting && m.conditions.Some? && NoRecreation(o.env)
    ensures var out := Pass(o, Some(m), watching, registered).out;
            var before := m.conditions.value;
            out.completed && !out.patchFailed && out.stored.Some? ==>
              && out.stored.value.conditions.Some?
              && Judged(o.stackStatus, before, out.stored.value.conditions.value)
              && IsTrue(out.stored.value.conditions, ServiceMonitorReady)
              && IsTrue(out.stored.value.conditions, NodeSetReady)
              && IsTrue(out.stored.value.conditions, ScrapeConfigReady)
              && (IsTrue(out.stored.value.conditions, Ready) <==>
                    && StackUp(o.stackStatus, before)
                    && forall c :: c in before && c !in MONITORED && c != Ready ==> before[c] == True)
  {
    hide Normal, Reached, ObjectActs, Deployed, StackUp, Judged;
    var s := State(watching, registered, m.conditions.value);
    NormalExactly(o, m.spec, s);
    ObjectActsKeep(Some(m), o.env);
    var f := Normal(o, m.spec, s);
    if f.Next? {
      ReadyOverMonitored(o.stackStatus, s.conds, f.state.conds);
      DeployedWithReady(o.stackStatus, s.conds, f.state.conds);
    }
  }

  lemma DeployedWithReady(status: seq<bool>, before: Conds, after: Conds)
    requires Deployed(status, before, after)
    ensures var r := WithReady(after);
            && Judged(status, before, r)
            && IsTrue(Some(r), ServiceMonitorReady) && IsTrue(Some(r), NodeSetReady)
            && IsTrue(Some(r), ScrapeConfigReady)
  {
  }

  /** The first list of a MetricStorage: its four conditions and Ready, all Unknown. */
  lemma MetricStorageFirstList(o: Oracle, m: MetricStorage, watching: seq<string>, registered: seq<string>)
    requires !o.fetchFails && m.meta.ours && m.conditions.None? && o.env == [] && o.patchStatus
    ensures var out := Pass(o, Some(m), watching, registered).out;
            && out.result == DONE && !out.completed && out.stored.Some? && out.stored.value.meta == m.meta
            && out.stored.value.conditions.Some?
            && var c := out.stored.value.conditions.value;
               && c.Keys == MONITORED + {Ready}
               && forall x :: x in c ==> c[x] == Unknown
  {
    assert AllUnknown(METRIC_STORAGE_CONDS)[NodeSetReady] == Unknown;
  }
}
