/** What every run keeps: the finalizer discipline, the two-phase deploy gate,
    the stickiness of a failed InputReady, and the absence of lost wake-ups. All
    of it is proved for every reconciler whose programs have a stated shape. */
module Safety {
  import opened Conditions
  import opened Cluster
  import opened Stages

  /** The uid counter is ahead of the stored resource. */
  predicate FreshUids(s: Store) {
    s.cr.Some? ==> s.cr.value.uid < s.nextUid
  }

  // ---------------------------------------------------------------- finalizers

  /** The dependent that a stage may put our finalizer on. */
  function Acquires(st: Stage): Option<Dependent> {
    match st
    case Register(d) => Some(d)
    case CreateDatabase => Some(Database)
    case _ => None
  }

  /** A program for live resources: keeps our finalizer on the resource and takes
      hold of nothing outside `deps`. */
  predicate KeepsHold(p: Program, deps: set<Dependent>) {
    match p
    case End => true
    case Then(st, rest) =>
      && !st.DropFinalizer?
      && (Acquires(st).Some? ==> Acquires(st).value in deps)
      && KeepsHold(rest, deps)
  }

  /** A program for terminating resources: takes hold of nothing, has no gate, and
      drops our finalizer only after it let go of every dependent still in `owed`. */
  predicate LetsGo(p: Program, owed: set<Dependent>) {
    match p
    case End => true
    case Then(st, rest) =>
      if st.ReleaseFinalizer? then LetsGo(rest, owed - {st.dep})
      else
        && Acquires(st).None? && !st.Deploy? && !st.Gate?
        && (st.DropFinalizer? ==> owed == {})
        && LetsGo(rest, owed)
  }

  /** Deployment happens only behind the gate. */
  predicate Gated(p: Program, open: bool) {
    match p
    case End => true
    case Then(st, rest) =>
      if st.Gate? then Gated(rest, true) else (st.Deploy? ==> open) && Gated(rest, open)
  }

  /** The shape of a program for live resources, KeepsHold and Gated in one. */
  predicate Live(p: Program, deps: set<Dependent>, open: bool) {
    match p
    case End => true
    case Then(st, rest) =>
      if st.Gate? then Live(rest, deps, true)
      else
        && !st.DropFinalizer? && (st.Deploy? ==> open)
        && (Acquires(st).Some? ==> Acquires(st).value in deps)
        && Live(rest, deps, open)
  }

  lemma LiveShape(p: Program, deps: set<Dependent>, open: bool)
    requires Live(p, deps, open)
    ensures KeepsHold(p, deps) && Gated(p, open)
  {
  }

  lemma LetsGoGated(p: Program, owed: set<Dependent>, open: bool)
    requires LetsGo(p, owed)
    ensures Gated(p, open)
  {
  }

  /** A reconciler whose programs have those shapes. */
  predicate Disciplined(k: Reconciler, deps: set<Dependent>) {
    (forall b: bool :: Live(Normal(k, b), deps, false)) && LetsGo(k.delete, deps)
  }

  /** Only dependents in `deps` carry our finalizer, and only while the stored
      resource carries it. */
  predicate Covered(s: Store, deps: set<Dependent>) {
    forall d :: HoldsOurs(s, d) ==> d in deps && s.cr.Some? && s.cr.value.meta.ours
  }

  /** The state of a running pass, on top of Covered: what can still carry our
      finalizer is in `owed`. */
  predicate Holding(l: Local, held: bool, deps: set<Dependent>, owed: set<Dependent>) {
    && Covered(l.store, deps)
    && (held ==> l.store.cr.Some? && l.store.cr.value.meta.ours)
    && (forall d :: HoldsOurs(l.store, d) ==> d in owed)
    && (l.meta.ours != held ==> !l.meta.ours && forall d :: !HoldsOurs(l.store, d))
  }

  lemma ActsCovered(s: Store, actions: seq<EnvAction>, deps: set<Dependent>)
    requires Covered(s, deps)
    ensures Covered(Acts(s, actions), deps)
  {
    ActsKeep(s, actions);
  }

  lemma StepHolding(
    k: Reconciler, o: Oracle, st: Stage, l: Local, held: bool, deps: set<Dependent>, owed: set<Dependent>)
    requires Holding(l, held, deps, owed)
    requires Acquires(st).Some? ==> held && l.meta.ours && Acquires(st).value in deps && Acquires(st).value in owed
    requires st.DropFinalizer? ==> owed == {}
    ensures var f := Step(k, o, st, l);
            && Holding(f.local, held, deps, owed)
            && (!st.DropFinalizer? ==> f.local.meta == l.meta)
            && (st.ReleaseFinalizer? && f.Next? ==> Holding(f.local, held, deps, owed - {st.dep}))
  {
    hide Touch, Acts, JudgeInput, JudgeInit;
    ActsKeep(l.store, o.env(st));
    var s1 := Acts(l.store, o.env(st));
    var s2 := Touch(o, st, l.memo.inputHash, s1);
    TouchHolds(o, st, l.memo.inputHash, s1);
  }

  /** What a stage does to our finalizer on the dependents. */
  lemma TouchHolds(o: Oracle, st: Stage, h: string, s: Store)
    ensures var r := Touch(o, st, h, s);
            && r.cr == s.cr
            && (forall d :: HoldsOurs(r, d) ==> HoldsOurs(s, d) || Acquires(st) == Some(d))
            && (st.ReleaseFinalizer? && !o.reply(st).err.Other? ==> !HoldsOurs(r, st.dep))
  {
  }

  lemma {:induction false} RunKeeps(k: Reconciler, o: Oracle, p: Program, l: Local, deps: set<Dependent>)
    requires KeepsHold(p, deps) && l.meta.ours
    requires Holding(l, true, deps, deps)
    ensures var r := Run(k, o, p, l).local; Holding(r, true, deps, deps) && r.meta == l.meta
    decreases p
  {
    hide Judge;
    if p.Then? {
      StepHolding(k, o, p.head, l, true, deps, deps);
      var f := Step(k, o, p.head, l);
      if f.Next? { RunKeeps(k, o, p.tail, f.local, deps); }
    }
  }

  lemma {:induction false} RunLetsGo(
    k: Reconciler, o: Oracle, p: Program, l: Local, held: bool, deps: set<Dependent>, owed: set<Dependent>)
    requires LetsGo(p, owed)
    requires Holding(l, held, deps, owed)
    ensures Holding(Run(k, o, p, l).local, held, deps, owed)
    decreases p
  {
    hide Judge;
    if p.Then? {
      StepHolding(k, o, p.head, l, held, deps, owed);
      var f := Step(k, o, p.head, l);
      if f.Next? {
        RunLetsGo(k, o, p.tail, f.local, held, deps, if p.head.ReleaseFinalizer? then owed - {p.head.dep} else owed);
      }
    }
  }

  /** The state at the deferred write: our finalizer is only dropped when no
      dependent carries it. */
  predicate Droppable(s: Store, deps: set<Dependent>, before: bool, after: bool) {
    Covered(s, deps) && (before && !after ==> forall d :: !HoldsOurs(s, d))
  }

  lemma BodyCovered(k: Reconciler, o: Oracle, s: Store, cr: Resource, deps: set<Dependent>)
    requires Disciplined(k, deps) && Covered(s, deps) && s.cr == Some(cr)
    ensures var l := Body(k, o, s, cr).local; Droppable(l.store, deps, cr.meta.ours, l.meta.ours)
  {
    hide Run;
    if !AddsFinalizer(cr) && cr.status.conditions.Some? {
      if cr.meta.deleting {
        RunLetsGo(k, o, k.delete, Begin(s, cr), cr.meta.ours, deps, deps);
      } else {
        LiveShape(Normal(k, o.publicFirst), deps, false);
        RunKeeps(k, o, Normal(k, o.publicFirst), Begin(s, cr), deps);
      }
    }
  }

  lemma PatchCovered(o: Oracle, before: Resource, ours: bool, status: Status, s: Store, deps: set<Dependent>)
    requires Droppable(s, deps, before.meta.ours, ours)
    ensures Covered(Patched(o, before, ours, status, s), deps)
  {
    var r := Patched(o, before, ours, status, s);
    assert forall d :: HoldsOurs(r, d) <==> HoldsOurs(s, d);
  }

  /** One pass keeps the finalizer invariant, whatever fails and whoever acts in
      the middle of it. */
  lemma PassCovered(k: Reconciler, o: Oracle, s: Store, deps: set<Dependent>)
    requires Disciplined(k, deps) && Covered(s, deps)
    ensures Covered(Reconcile(k, o, s), deps)
  {
    hide Acts, Body, Patched, PatchFails, Disciplined;
    ActsCovered(s, o.env(Fetch), deps);
    var s1 := Acts(s, o.env(Fetch));
    if o.reply(Fetch).err.Other? || s1.cr.None? { return; }
    var cr := s1.cr.value;
    var last := Body(k, o, s1, cr).local;
    BodyCovered(k, o, s1, cr, deps);
    ActsKeep(last.store, o.env(Patch));
    PatchCovered(o, cr, last.meta.ours, Refreshed(o, last.memo.status), Acts(last.store, o.env(Patch)), deps);
  }

  lemma {:induction false} RunCovered(k: Reconciler, s: Store, es: seq<Event>, deps: set<Dependent>)
    requires Disciplined(k, deps) && Covered(s, deps)
    ensures Covered(Exec(k, s, es), deps)
    decreases |es|
  {
    hide Reconcile;
    if es != [] {
      var prev := Exec(k, s, es[..|es| - 1]);
      RunCovered(k, s, es[..|es| - 1], deps);
      match es[|es| - 1]
      case Reconciles(o) => PassCovered(k, o, prev, deps);
      case Acted(a) => ActsCovered(prev, [a], deps); assert Acts(prev, [a]) == Act(prev, a);
    }
  }

  /** Finalizer safety: in no run of passes, failures and interference does an
      object keep our finalizer after the resource is gone. */
  lemma FinalizerSafety(k: Reconciler, s: Store, es: seq<Event>, deps: set<Dependent>, d: Dependent)
    requires Disciplined(k, deps)
    requires forall e :: !HoldsOurs(s, e)
    requires Exec(k, s, es).cr.None?
    ensures !HoldsOurs(Exec(k, s, es), d)
  {
    RunCovered(k, s, es, deps);
  }

  // ---------------------------------------------------------------- the deploy gate

  /** The hash of a variable map is never the empty string. */
  ghost predicate Hashes(k: Reconciler) {
    forall vars :: k.objectHash(vars) != ""
  }

  /** Along a pass the recorded input hash stays what the pass read, and behind the
      gate the accepted hash is that recorded one. */
  predicate Gatekept(m: Memo, recorded: string, open: bool) {
    && Lookup(m.status.hash, InputHash) == recorded
    && (open ==> m.inputHash == recorded != "")
  }

  lemma JudgeGatekept(k: Reconciler, o: Oracle, st: Stage, spec: Spec, m: Memo, recorded: string, open: bool)
    requires Gatekept(m, recorded, open) && Hashes(k)
    ensures var v := Judge(k, o, st, spec, m);
            && (v.Go? ==> Gatekept(v.memo, recorded, open || st.Gate?))
            && (v.Halt? && v.result == DONE ==> st.Gate? && Lookup(v.memo.status.hash, InputHash) != recorded)
  {
    if BeforeGate(st) {
      JudgeInputGatekept(k, o, st, spec, m, recorded, open);
    } else if InInit(st) {
      JudgeInitGatekept(k, o, st, m, recorded, open);
    } else {
      JudgeDeployGatekept(k, o, st, m, recorded, open);
    }
  }

  lemma JudgeInputGatekept(k: Reconciler, o: Oracle, st: Stage, spec: Spec, m: Memo, recorded: string, open: bool)
    requires Gatekept(m, recorded, open) && Hashes(k) && BeforeGate(st)
    ensures var v := JudgeInput(k, o, st, spec, m);
            && (v.Go? ==> Gatekept(v.memo, recorded, open || st.Gate?))
            && (v.Halt? && v.result == DONE ==> st.Gate? && Lookup(v.memo.status.hash, InputHash) != recorded)
  {
  }

  lemma JudgeInitGatekept(k: Reconciler, o: Oracle, st: Stage, m: Memo, recorded: string, open: bool)
    requires Gatekept(m, recorded, open) && InInit(st)
    ensures var v := JudgeInit(k, o, st, m);
            && (v.Go? ==> Gatekept(v.memo, recorded, open))
            && (v.Halt? ==> v.result != DONE)
  {
  }

  lemma JudgeDeployGatekept(k: Reconciler, o: Oracle, st: Stage, m: Memo, recorded: string, open: bool)
    requires Gatekept(m, recorded, open)
    ensures var v := JudgeDeploy(k, o, st, m);
            && (v.Go? ==> Gatekept(v.memo, recorded, open))
            && (v.Halt? ==> v.result != DONE)
  {
  }

  /** A workload that was there at the start or carries the recorded hash. */
  predicate Accounted(now: Option<string>, start: Option<string>, recorded: string) {
    now.None? || now == start || (now == Some(recorded) && recorded != "")
  }

  lemma {:induction false} RunGatekept(
    k: Reconciler, o: Oracle, p: Program, l: Local, recorded: string, open: bool, w: Option<string>)
    requires Gated(p, open) && Gatekept(l.memo, recorded, open) && Hashes(k)
    requires Accounted(l.store.workload, w, recorded)
    ensures var f := Run(k, o, p, l);
            && Accounted(f.local.store.workload, w, recorded)
            && (f.Stop? && f.result == DONE ==> Lookup(f.local.memo.status.hash, InputHash) != recorded)
    decreases p
  {
    hide Judge;
    if p.Then? {
      JudgeGatekept(k, o, p.head, l.spec, l.memo, recorded, open);
      ActsKeep(l.store, o.env(p.head));
      var f := Step(k, o, p.head, l);
      if f.Next? { RunGatekept(k, o, p.tail, f.local, recorded, open || p.head.Gate?, w); }
    }
  }

  /** One pass: any workload it leaves was there before, or carries a hash that the
      stored status recorded when the pass began. */
  lemma PassGated(k: Reconciler, o: Oracle, s: Store, deps: set<Dependent>)
    requires Disciplined(k, deps) && Hashes(k)
    ensures var w := Reconcile(k, o, s).workload;
            w.Some? ==> w == s.workload || Recorded(s, w.value)
  {
    hide Acts, Run;
    ActsKeep(s, o.env(Fetch));
    var s1 := Acts(s, o.env(Fetch));
    if o.reply(Fetch).err.Other? || s1.cr.None? { return; }
    var cr := s1.cr.value;
    var recorded := Lookup(cr.status.hash, InputHash);
    var f := Body(k, o, s1, cr);
    BodyGatekept(k, o, s1, cr, deps);
    ActsKeep(f.local.store, o.env(Patch));
    assert Reconcile(k, o, s).workload == Acts(f.local.store, o.env(Patch)).workload;
    assert Accounted(Reconcile(k, o, s).workload, s1.workload, recorded);
    assert recorded != "" ==> s.cr.Some? && s.cr.value.status == cr.status;
  }

  /** What a pass does up to the deferred write, seen from the gate. */
  lemma BodyGatekept(k: Reconciler, o: Oracle, s: Store, cr: Resource, deps: set<Dependent>)
    requires Disciplined(k, deps) && Hashes(k)
    ensures var f := Body(k, o, s, cr);
            var recorded := Lookup(cr.status.hash, InputHash);
            && Accounted(f.local.store.workload, s.workload, recorded)
            && (f.Stop? && f.result == DONE ==>
                  || AddsFinalizer(cr) || cr.status.conditions.None?
                  || Lookup(f.local.memo.status.hash, InputHash) != recorded)
  {
    hide Judge;
    LiveShape(Normal(k, o.publicFirst), deps, false);
    LetsGoGated(k.delete, deps, false);
    RunGatekept(k, o, ProgramOf(k, o, cr), Begin(s, cr), Lookup(cr.status.hash, InputHash), false, s.workload);
  }

  /** The two-phase gate over whole runs: whatever workload a run leaves, its hash
      was recorded in the stored status at the start of some pass of that run. */
  lemma {:induction false} GateSafety(k: Reconciler, s: Store, es: seq<Event>, deps: set<Dependent>) returns (i: nat)
    requires Disciplined(k, deps) && Hashes(k) && s.workload.None?
    requires Exec(k, s, es).workload.Some?
    ensures i < |es| && es[i].Reconciles?
    ensures Recorded(Exec(k, s, es[..i]), Exec(k, s, es).workload.value)
    decreases |es|
  {
    hide Reconcile;
    assert es != [];
    i := |es| - 1;
    var prev := Exec(k, s, es[..i]);
    var last := Exec(k, s, es);
    match es[i] {
      case Acted(a) => ActsKeep(prev, [a]); assert Acts(prev, [a]) == Act(prev, a) == last;
      case Reconciles(o) => PassGated(k, o, prev, deps);
    }
    if es[i].Acted? || !Recorded(prev, last.workload.value) {
      assert prev.workload == last.workload;
      var j := GateSafety(k, s, es[..i], deps);
      assert es[..i][..j] == es[..j];
      i := j;
    }
  }

  // ---------------------------------------------------------------- wake-ups

  /** What a pass read, and whether the outcome left a changed object behind. */
  predicate ChangedBy(k: Reconciler, o: Oracle, s0: Store) {
    var s := Acts(s0, o.env(Fetch));
    var r := Reconcile(k, o, s0);
    && s.cr.Some? && r.cr.Some?
    && (r.cr.value.status != s.cr.value.status || r.cr.value.meta.ours != s.cr.value.meta.ours)
  }

  /** No lost wake-up: a pass on an existing object that asks for nothing and
      reports nothing either ran its program to the end or left the object changed,
      which enqueues it again. A reconciler that drops the error of its deferred
      patch owes this only when that patch succeeded. */
  lemma NoLostWakeUp(k: Reconciler, o: Oracle, s: Store, deps: set<Dependent>)
    requires Disciplined(k, deps) && Hashes(k)
    requires Pass(k, o, s).2.Some? && Pass(k, o, s).1 == DONE
    requires k.reports || !Pass(k, o, s).2.value.patchFailed
    ensures Pass(k, o, s).2.value.completed || ChangedBy(k, o, s)
  {
    hide Judge;
    var s1 := Acts(s, o.env(Fetch));
    var cr := s1.cr.value;
    var f := Body(k, o, s1, cr);
    BodyGatekept(k, o, s1, cr, deps);
    if f.Stop? {
      assert f.result == DONE;
      var st := Refreshed(o, f.local.memo.status);
      assert st != cr.status || f.local.meta.ours != cr.meta.ours;
    }
  }

  /** Nobody but the operator writes the status of a resource or its finalizer: as long
      as the stored resource is the one that was read, both are as they were read. */
  predicate Untouched(s: Store, read: Resource) {
    && FreshUids(s) && read.uid < s.nextUid
    && (s.cr.Some? && s.cr.value.uid == read.uid ==>
          s.cr.value.status == read.status && s.cr.value.meta.ours == read.meta.ours)
  }

  lemma {:induction false} ActsUntouched(s: Store, actions: seq<EnvAction>, read: Resource)
    requires Untouched(s, read)
    ensures Untouched(Acts(s, actions), read)
    decreases |actions|
  {
    if actions != [] { ActsUntouched(Act(s, actions[0]), actions[1..], read); }
  }

  lemma {:induction false} RunUntouched(k: Reconciler, o: Oracle, p: Program, l: Local, read: Resource)
    requires Untouched(l.store, read)
    ensures Untouched(Run(k, o, p, l).local.store, read)
    decreases p
  {
    if p.Then? {
      hide Judge, Acts;
      ActsUntouched(l.store, o.env(p.head), read);
      var f := Step(k, o, p.head, l);
      if f.Next? { RunUntouched(k, o, p.tail, f.local, read); }
    }
  }

  /** A deletion never stops silently. */
  lemma {:induction false} DeletionIsLoud(k: Reconciler, o: Oracle, p: Program, l: Local, owed: set<Dependent>)
    requires LetsGo(p, owed) && Hashes(k)
    ensures Run(k, o, p, l).Stop? ==> Run(k, o, p, l).result != DONE
    decreases p
  {
    if p.Then? {
      hide Judge;
      JudgeGatekept(k, o, p.head, l.spec, l.memo, Lookup(l.memo.status.hash, InputHash), false);
      var f := Step(k, o, p.head, l);
      if f.Next? {
        DeletionIsLoud(k, o, p.tail, f.local, if p.head.ReleaseFinalizer? then owed - {p.head.dep} else owed);
      }
    }
  }

  lemma {:induction false} RunSameMeta(k: Reconciler, o: Oracle, p: Program, l: Local, deps: set<Dependent>)
    requires KeepsHold(p, deps)
    ensures Run(k, o, p, l).local.meta == l.meta
    decreases p
  {
    if p.Then? {
      hide Judge;
      var f := Step(k, o, p.head, l);
      if f.Next? { RunSameMeta(k, o, p.tail, f.local, deps); }
    }
  }

  /** What a pass has in memory when it stops silently: the new finalizer, or a status
      that differs from the one that was read. */
  lemma SilentStop(k: Reconciler, o: Oracle, s: Store, cr: Resource, deps: set<Dependent>)
    requires Disciplined(k, deps) && Hashes(k)
    ensures var f := Body(k, o, s, cr);
            f.Stop? && f.result == DONE ==>
              if AddsFinalizer(cr) then f.local.meta == cr.meta.(ours := true) && f.local.memo.status == cr.status
              else f.local.meta == cr.meta && Refreshed(o, f.local.memo.status) != cr.status
  {
    hide Judge, Run, WithReady;
    if !AddsFinalizer(cr) && cr.status.conditions.Some? {
      if cr.meta.deleting {
        DeletionIsLoud(k, o, k.delete, Begin(s, cr), deps);
      } else {
        BodyGatekept(k, o, s, cr, deps);
        LiveShape(Normal(k, o.publicFirst), deps, false);
        RunSameMeta(k, o, Normal(k, o.publicFirst), Begin(s, cr), deps);
      }
    }
  }

  lemma BodyUntouched(k: Reconciler, o: Oracle, s: Store, cr: Resource)
    requires s.cr == Some(cr) && FreshUids(s)
    ensures Untouched(Body(k, o, s, cr).local.store, cr)
  {
    hide Run;
    if !AddsFinalizer(cr) && cr.status.conditions.Some? {
      RunUntouched(k, o, ProgramOf(k, o, cr), Begin(s, cr), cr);
    }
  }

  /** Which part of the deferred patch has to be accepted for the object to change:
      when the finalizer is new, either part that has something to write; otherwise
      the status. */
  predicate Accepted(o: Oracle, cr: Resource) {
    if AddsFinalizer(cr) then o.patchMeta || (o.patchStatus && Refreshed(o, cr.status) != cr.status)
    else o.patchStatus
  }

  /** The resource that a pass read is still the stored one after it. */
  predicate StillThere(k: Reconciler, o: Oracle, s: Store) {
    var s1, r := Acts(s, o.env(Fetch)), Reconcile(k, o, s);
    s1.cr.Some? && r.cr.Some? && r.cr.value.uid == s1.cr.value.uid
  }

  /** Exactly when a pass loses its wake-up: a pass that stops silently leaves the
      resource that it read changed if and only if the API server accepts that part of
      the deferred patch, whatever others do meanwhile. */
  lemma WakeUpExactly(k: Reconciler, o: Oracle, s: Store, deps: set<Dependent>)
    requires Disciplined(k, deps) && Hashes(k) && !o.reply(Fetch).err.Other?
    requires FreshUids(Acts(s, o.env(Fetch))) && Acts(s, o.env(Fetch)).cr.Some?
    ensures var s1 := Acts(s, o.env(Fetch));
            var f := Body(k, o, s1, s1.cr.value);
            f.Stop? && f.result == DONE && StillThere(k, o, s) ==> (ChangedBy(k, o, s) <==> Accepted(o, s1.cr.value))
  {
    hide Acts, Body, WithReady, Disciplined;
    var s1 := Acts(s, o.env(Fetch));
    var cr := s1.cr.value;
    var l := Body(k, o, s1, cr).local;
    SilentStop(k, o, s1, cr, deps);
    BodyUntouched(k, o, s1, cr);
    ActsUntouched(l.store, o.env(Patch), cr);
  }

  // ---------------------------------------------------------------- InputReady

  /** No stage of the program marks the condition True. */
  predicate NeverMarksTrue(p: Program, c: Cond) {
    match p
    case End => true
    case Then(st, rest) =>
      && (st.MarkDone? ==> st.cond != c)
      && (st.Require? ==> st.cond != c)
      && NeverMarksTrue(rest, c)
  }

  /** No stage of the program reads a secret, which could mark InputReady False. */
  predicate ReadsNoSecret(p: Program) {
    p.Then? ==> !p.head.ReadSecret? && ReadsNoSecret(p.tail)
  }

  /** InputReady has the given status. */
  predicate InputIs(c: Option<Conds>, s: CondStatus) {
    c.Some? && InputReady in c.value && c.value[InputReady] == s
  }

  /** InputReady is False, hence Ready is not True. */
  predicate Stuck(c: Option<Conds>) {
    InputIs(c, False)
  }

  lemma InputSet(m: Memo, c: Cond, s: CondStatus, input: CondStatus)
    requires InputIs(m.status.conditions, input) && (c == InputReady ==> s == input)
    ensures InputIs(SetMirror(m, c, s).status.conditions, input) && InputIs(SetMark(m, c, s).status.conditions, input)
  {
  }

  lemma InputRbac(m: Memo, w: Conds, input: CondStatus)
    requires InputIs(m.status.conditions, input)
    ensures InputIs(SetRbac(m, w).status.conditions, input)
  {
  }

  lemma InputTransport(m: Memo, secret: string, input: CondStatus)
    requires InputIs(m.status.conditions, input)
    ensures var m' := m.(status := m.status.(transportURLSecret := secret));
            && InputIs(SetMark(m', RabbitMqTransportURLReady, True).status.conditions, input)
            && InputIs(SetMark(m', RabbitMqTransportURLReady, False).status.conditions, input)
  {
  }

  lemma InputResolved(host: string, spec: Spec, m: Memo, input: CondStatus)
    requires InputIs(m.status.conditions, input)
    ensures InputIs(Resolved(host, spec, m.status).conditions, input)
  {
  }

  /** What a stage must not do, to leave InputReady as it is. */
  predicate Spares(st: Stage, input: CondStatus) {
    && ((st.MarkDone? || st.Require?) ==> st.cond != InputReady)
    && (st.ReadSecret? ==> input == False)
  }

  lemma JudgeInputKeeps(k: Reconciler, o: Oracle, st: Stage, spec: Spec, m: Memo, input: CondStatus)
    requires InputIs(m.status.conditions, input) && BeforeGate(st) && Spares(st, input)
    ensures InputIs(JudgeInput(k, o, st, spec, m).memo.status.conditions, input)
  {
    hide InputIs, SetMark, SetRbac, Lookup, Resolved;
    if st.Rbac? {
      InputRbac(m, o.rbac, input);
    } else if st.MarkDone? || st.Require? {
      InputSet(m, st.cond, True, input);
      InputSet(m, st.cond, False, input);
    } else if st.Transport? {
      InputSet(m, RabbitMqTransportURLReady, False, input);
      InputTransport(m, o.transportSecret, input);
    } else if st.Prometheus? {
      InputResolved(k.prometheusHost, spec, m, input);
    } else if st.ReadSecret? {
      InputSet(m, InputReady, False, input);
    } else {
      InputSet(m, ServiceConfigReady, False, input);
    }
  }

  lemma JudgeInitKeeps(k: Reconciler, o: Oracle, st: Stage, m: Memo, input: CondStatus)
    requires InputIs(m.status.conditions, input) && InInit(st)
    ensures InputIs(JudgeInit(k, o, st, m).memo.status.conditions, input)
  {
    hide InputIs, SetMark, SetMirror;
    if st.Register? {
      if o.mirror(st.dep).Some? { InputSet(m, RegisterCond(st.dep), o.mirror(st.dep).value, input); }
    } else if st.SyncDatabase? {
      InputSet(m, DBSyncReady, False, input);
      InputSet(m.(status := m.status.(hash := m.status.hash[DbSyncHash := o.jobHash])), DBSyncReady, True, input);
    } else {
      InputSet(m, DBReady, False, input);
      InputSet(m.(status := m.status.(databaseHostname := o.hostname)), DBReady, True, input);
    }
  }

  lemma JudgeDeployKeeps(k: Reconciler, o: Oracle, st: Stage, m: Memo, input: CondStatus)
    requires InputIs(m.status.conditions, input)
    ensures InputIs(JudgeDeploy(k, o, st, m).memo.status.conditions, input)
  {
    hide InputIs, SetMark, SetMirror;
    InputSet(m, DeploymentReady, False, input);
    InputSet(m, ExposeServiceReady, False, input);
    InputSet(m.(status := m.status.(readyCount := o.replicas)), DeploymentReady, True, input);
    InputSet(m.(status := m.status.(endpoints := m.endpoints)), ExposeServiceReady, True, input);
  }

  lemma JudgeKeepsInput(k: Reconciler, o: Oracle, st: Stage, spec: Spec, m: Memo, input: CondStatus)
    requires InputIs(m.status.conditions, input) && Spares(st, input)
    ensures InputIs(Judge(k, o, st, spec, m).memo.status.conditions, input)
  {
    hide JudgeInput, JudgeInit, JudgeDeploy;
    if BeforeGate(st) {
      JudgeInputKeeps(k, o, st, spec, m, input);
    } else if InInit(st) {
      JudgeInitKeeps(k, o, st, m, input);
    } else {
      JudgeDeployKeeps(k, o, st, m, input);
    }
  }

  /** A program that cannot mark InputReady True keeps it False; one that also
      reads no secret keeps it whatever it is. */
  lemma {:induction false} RunKeepsInput(k: Reconciler, o: Oracle, p: Program, l: Local, input: CondStatus)
    requires InputIs(l.memo.status.conditions, input) && NeverMarksTrue(p, InputReady)
    requires input == False || ReadsNoSecret(p)
    ensures InputIs(Run(k, o, p, l).local.memo.status.conditions, input)
    decreases p
  {
    if p.Then? {
      hide Judge, InputIs;
      JudgeKeepsInput(k, o, p.head, l.spec, l.memo, input);
      var f := Step(k, o, p.head, l);
      if f.Next? { RunKeepsInput(k, o, p.tail, f.local, input); }
    }
  }

  predicate NeverRecovers(k: Reconciler) {
    (forall b: bool :: NeverMarksTrue(Normal(k, b), InputReady)) && NeverMarksTrue(k.delete, InputReady)
  }

  /** The resource with this uid, if it is still there, is stuck and not Ready. */
  predicate StuckFor(s: Store, uid: nat) {
    && FreshUids(s) && uid < s.nextUid
    && (s.cr.Some? && s.cr.value.uid == uid ==>
          Stuck(s.cr.value.status.conditions) && !IsTrue(s.cr.value.status.conditions, Ready))
  }

  lemma {:induction false} ActsStuck(s: Store, actions: seq<EnvAction>, uid: nat)
    requires StuckFor(s, uid)
    ensures StuckFor(Acts(s, actions), uid)
    decreases |actions|
  {
    if actions != [] { ActsStuck(Act(s, actions[0]), actions[1..], uid); }
  }

  lemma {:induction false} RunStuckStore(k: Reconciler, o: Oracle, p: Program, l: Local, uid: nat)
    requires StuckFor(l.store, uid)
    ensures StuckFor(Run(k, o, p, l).local.store, uid)
    ensures Run(k, o, p, l).local.store.nextUid >= l.store.nextUid
    ensures Run(k, o, p, l).local.uid == l.uid
    ensures GoneFor(l.store, uid) ==> GoneFor(Run(k, o, p, l).local.store, uid)
    decreases p
  {
    hide Judge;
    if p.Then? {
      ActsStuck(l.store, o.env(p.head), uid);
      ActsGone(l.store, o.env(p.head), uid);
      ActsKeep(l.store, o.env(p.head));
      var f := Step(k, o, p.head, l);
      if f.Next? { RunStuckStore(k, o, p.tail, f.local, uid); }
    }
  }

  /** A uid that is gone never comes back. */
  predicate GoneFor(s: Store, uid: nat) {
    uid < s.nextUid && (s.cr.Some? ==> s.cr.value.uid != uid)
  }

  lemma {:induction false} ActsGone(s: Store, actions: seq<EnvAction>, uid: nat)
    ensures GoneFor(s, uid) ==> GoneFor(Acts(s, actions), uid)
    decreases |actions|
  {
    if actions != [] { ActsGone(Act(s, actions[0]), actions[1..], uid); }
  }

  lemma PatchStuck(o: Oracle, before: Resource, ours: bool, status: Status, s: Store, uid: nat)
    requires StuckFor(s, uid)
    requires (Stuck(status.conditions) && !IsTrue(status.conditions, Ready)) || GoneFor(s, uid)
    ensures StuckFor(Patched(o, before, ours, status, s), uid)
  {
  }

  lemma BodyStuck(k: Reconciler, o: Oracle, s: Store, cr: Resource, uid: nat)
    requires NeverRecovers(k) && StuckFor(s, uid) && s.cr == Some(cr)
    ensures var last := Body(k, o, s, cr).local;
            && StuckFor(last.store, uid)
            && (if cr.uid == uid then Stuck(last.memo.status.conditions) else GoneFor(last.store, uid))
  {
    hide Run, NeverMarksTrue;
    if !AddsFinalizer(cr) && cr.status.conditions.Some? {
      RunStuckStore(k, o, ProgramOf(k, o, cr), Begin(s, cr), uid);
      if cr.uid == uid {
        assert NeverMarksTrue(Normal(k, o.publicFirst), InputReady);
        RunKeepsInput(k, o, ProgramOf(k, o, cr), Begin(s, cr), False);
      }
    }
  }

  lemma StuckNotReady(o: Oracle, st: Status)
    requires Stuck(st.conditions)
    ensures Stuck(Refreshed(o, st).conditions) && !IsTrue(Refreshed(o, st).conditions, Ready)
  {
  }

  lemma PassStuck(k: Reconciler, o: Oracle, s: Store, uid: nat)
    requires NeverRecovers(k) && StuckFor(s, uid)
    ensures StuckFor(Reconcile(k, o, s), uid)
  {
    hide Acts, Body, NeverRecovers, Stuck, IsTrue, Refreshed, Patched, PatchFails;
    ActsStuck(s, o.env(Fetch), uid);
    var s1 := Acts(s, o.env(Fetch));
    if o.reply(Fetch).err.Other? || s1.cr.None? { return; }
    var cr := s1.cr.value;
    var last := Body(k, o, s1, cr).local;
    BodyStuck(k, o, s1, cr, uid);
    ActsStuck(last.store, o.env(Patch), uid);
    ActsGone(last.store, o.env(Patch), uid);
    if cr.uid == uid { StuckNotReady(o, last.memo.status); }
    PatchStuck(o, cr, last.meta.ours, Refreshed(o, last.memo.status), Acts(last.store, o.env(Patch)), uid);
  }

  /** Once InputReady is False in the stored status, no run makes that resource
      Ready again. */
  lemma {:induction false} InputNeverRecovers(k: Reconciler, s: Store, es: seq<Event>, uid: nat)
    requires NeverRecovers(k) && StuckFor(s, uid)
    ensures StuckFor(Exec(k, s, es), uid)
    decreases |es|
  {
    hide Reconcile;
    if es != [] {
      var prev := Exec(k, s, es[..|es| - 1]);
      InputNeverRecovers(k, s, es[..|es| - 1], uid);
      match es[|es| - 1]
      case Reconciles(o) => PassStuck(k, o, prev, uid);
      case Acted(a) => ActsStuck(prev, [a], uid); assert Acts(prev, [a]) == Act(prev, a);
    }
  }
}
