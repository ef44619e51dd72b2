/** What a pass has collected when it comes to the gate, whatever was answered on the
    way there. */
module GateInputs {
  import opened Conditions
  import opened Cluster
  import opened Stages
  import opened Programs
  import opened Convergence
  import opened CeilometerConvergence

  /** The part of a memo that the hash depends on, and the recorded hashes. */
  datatype Inputs = Inputs(
    vars: map<Var, string>, transport: string, host: string, port: int, hostname: string, hash: map<HashKey, string>)

  function InputsOf(m: Memo): Inputs {
    Inputs(m.vars, m.status.transportURLSecret, m.status.prometheusHost, m.status.prometheusPort,
           m.status.databaseHostname, m.status.hash)
  }

  /** What a stage in front of the gate does to them when it goes through. */
  function After(k: Reconciler, o: Oracle, st: Stage, spec: Spec, x: Inputs): Inputs {
    match st
    case Transport => x.(transport := o.transportSecret)
    case ReadSecret(source) =>
      var name := if source.FromSpec? then spec.secret else x.transport;
      x.(vars := x.vars[SecretVar(name) := o.secretHash(name)])
    case Prometheus => x.(host := PromHost(k, spec), port := PromPort(spec))
    case Render(service) =>
      x.(vars := x.vars[ScriptsVar(service) := o.scripts(service)]
                       [ConfigVar(service) := o.config(service, RenderInput(x.transport, x.host, x.port, x.hostname))])
    case _ => x
  }

  lemma StageInputs(k: Reconciler, o: Oracle, st: Stage, spec: Spec, m: Memo)
    requires BeforeGate(st) && !st.Gate? && JudgeInput(k, o, st, spec, m).Go?
    ensures InputsOf(JudgeInput(k, o, st, spec, m).memo) == After(k, o, st, spec, InputsOf(m))
  {
    hide RbacPart;
  }

  /** A program in front of the gate. */
  predicate InFront(p: Program) {
    p.Then? ==> BeforeGate(p.head) && !p.head.Gate? && InFront(p.tail)
  }

  function Collected(k: Reconciler, o: Oracle, p: Program, spec: Spec, x: Inputs): Inputs {
    match p
    case End => x
    case Then(st, rest) => Collected(k, o, rest, spec, After(k, o, st, spec, x))
  }

  /** For every oracle: a run that goes through has collected exactly that. */
  lemma {:induction false} RunCollects(k: Reconciler, o: Oracle, p: Program, l: Local)
    requires InFront(p) && Run(k, o, p, l).Next?
    ensures InputsOf(Run(k, o, p, l).local.memo) == Collected(k, o, p, l.spec, InputsOf(l.memo))
    decreases p
  {
    if p.Then? {
      hide JudgeInput, After, InputsOf;
      StageInputs(k, o, p.head, l.spec, l.memo);
      RunCollects(k, o, p.tail, Step(k, o, p.head, l).local);
    }
  }

  lemma CollectThen(k: Reconciler, o: Oracle, st: Stage, rest: Program, spec: Spec, x: Inputs)
    ensures Collected(k, o, Then(st, rest), spec, x) == Collected(k, o, rest, spec, After(k, o, st, spec, x))
  {
  }

  // ---------------------------------------------------------------- the stretch in front of the gate

  function Concat(p: Program, q: Program): Program {
    if p.End? then q else Then(p.head, Concat(p.tail, q))
  }

  /** A program runs its first part and then, if that went through, its second. */
  lemma {:induction false} RunConcat(k: Reconciler, o: Oracle, p: Program, q: Program, l: Local)
    ensures var f := Run(k, o, p, l);
            Run(k, o, Concat(p, q), l) == if f.Next? then Run(k, o, q, f.local) else f
    decreases p
  {
    if p.Then? {
      hide Step;
      var f := Step(k, o, p.head, l);
      if f.Next? { RunConcat(k, o, p.tail, q, f.local); }
    }
  }

  /** The run of a pass up to the gate. */
  function ToAodhGate(k: Reconciler, o: Oracle, s: Store, cr: Resource): Flow {
    Run(k, o, PrepareAutoscaling(End), Begin(s, cr))
  }

  function ToCeilometerGate(k: Reconciler, o: Oracle, s: Store, cr: Resource): Flow {
    Run(k, o, PrepareCeilometer(End), Begin(s, cr))
  }

  lemma PrepareAutoscalingShape(rest: Program)
    ensures PrepareAutoscaling(rest) == Concat(PrepareAutoscaling(End), rest) && InFront(PrepareAutoscaling(End))
  {
    var p := End;
    assert Concat(p, rest) == rest && InFront(p);
    hide Concat;
    p := Grow(Render(Aodh), p, rest);
    p := Grow(Prometheus, p, rest);
    p := Grow(ReadSecret(FromTransport), p, rest);
    p := Grow(Require(HeatReady), p, rest);
    p := Grow(Require(MemcachedReady), p, rest);
    p := Grow(ReadSecret(FromSpec), p, rest);
    p := Grow(Transport, p, rest);
    p := Grow(MarkDone(ServiceConfigReady), p, rest);
    p := Grow(Rbac, p, rest);
  }

  lemma PrepareCeilometerShape(rest: Program)
    ensures PrepareCeilometer(rest) == Concat(PrepareCeilometer(End), rest) && InFront(PrepareCeilometer(End))
  {
    var p := End;
    assert Concat(p, rest) == rest && InFront(p);
    hide Concat;
    p := Grow(Render(CeilometerCompute), p, rest);
    p := Grow(Render(CeilometerCentral), p, rest);
    p := Grow(MarkDone(InputReady), p, rest);
    p := Grow(ReadSecret(FromTransport), p, rest);
    p := Grow(ReadSecret(FromSpec), p, rest);
    p := Grow(Transport, p, rest);
    p := Grow(Rbac, p, rest);
  }

  lemma Grow(st: Stage, p: Program, rest: Program) returns (r: Program)
    requires BeforeGate(st) && !st.Gate? && InFront(p)
    ensures r == Then(st, p) && InFront(r) && Concat(r, rest) == Then(st, Concat(p, rest))
  {
    r := Then(st, p);
  }

  /** An Autoscaling pass is the run to the gate and what follows from there. */
  lemma AutoscalingViaGate(k: Reconciler, o: Oracle, b: bool, s: Store, cr: Resource)
    ensures var f := ToAodhGate(k, o, s, cr);
            Run(k, o, AutoscalingProgram(b), Begin(s, cr)) ==
              if f.Next? then Run(k, o, Then(Gate, InitAodh(NormalAodh(b, End))), f.local) else f
  {
    hide Run, Concat, PrepareAutoscaling;
    var rest := Then(Gate, InitAodh(NormalAodh(b, End)));
    PrepareAutoscalingShape(rest);
    RunConcat(k, o, PrepareAutoscaling(End), rest, Begin(s, cr));
  }

  lemma CeilometerViaGate(k: Reconciler, o: Oracle, s: Store, cr: Resource)
    ensures var f := ToCeilometerGate(k, o, s, cr);
            Run(k, o, CeilometerProgram(), Begin(s, cr)) ==
              if f.Next? then Run(k, o, Then(Gate, ServeCeilometer(End)), f.local) else f
  {
    hide Run, Concat, PrepareCeilometer;
    var rest := Then(Gate, ServeCeilometer(End));
    PrepareCeilometerShape(rest);
    RunConcat(k, o, PrepareCeilometer(End), rest, Begin(s, cr));
  }

  // ---------------------------------------------------------------- what was collected

  lemma CollectAodh(k: Reconciler, o: Oracle, spec: Spec, x: Inputs)
    requires x.vars == map[]
    ensures var r := Collected(k, o, PrepareAutoscaling(End), spec, x);
            r.vars == AodhVars(k, o, spec, x.hostname) && r.hash == x.hash
  {
    assert forall y :: Collected(k, o, End, spec, y) == y;
    hide Collected;
    var p8 := Then(Render(Aodh), End);
    var p6 := Then(ReadSecret(FromTransport), Then(Prometheus, p8));
    var p5 := Then(Require(HeatReady), p6);
    var p4 := Then(Require(MemcachedReady), p5);
    var p3 := Then(ReadSecret(FromSpec), p4);
    var p2 := Then(Transport, p3);
    CollectThen(k, o, Rbac, Then(MarkDone(ServiceConfigReady), p2), spec, x);
    CollectThen(k, o, MarkDone(ServiceConfigReady), p2, spec, x);
    CollectThen(k, o, Transport, p3, spec, x);
    var y := After(k, o, Transport, spec, x);
    CollectThen(k, o, ReadSecret(FromSpec), p4, spec, y);
    y := After(k, o, ReadSecret(FromSpec), spec, y);
    CollectThen(k, o, Require(MemcachedReady), p5, spec, y);
    CollectThen(k, o, Require(HeatReady), p6, spec, y);
    CollectThen(k, o, ReadSecret(FromTransport), p6.tail, spec, y);
    y := After(k, o, ReadSecret(FromTransport), spec, y);
    CollectThen(k, o, Prometheus, p8, spec, y);
    y := After(k, o, Prometheus, spec, y);
    CollectThen(k, o, Render(Aodh), End, spec, y);
  }

  lemma CollectCeilometer(k: Reconciler, o: Oracle, s: Store, cr: Resource)
    ensures var r := Collected(k, o, PrepareCeilometer(End), cr.spec, InputsOf(Begin(s, cr).memo));
            r.vars == CeilometerVars(o, cr.spec, cr.status) && r.hash == cr.status.hash
  {
    var x := InputsOf(Begin(s, cr).memo);
    assert forall y :: Collected(k, o, End, cr.spec, y) == y;
    hide Collected;
    var spec := cr.spec;
    var p6 := Then(Render(CeilometerCompute), End);
    var p5 := Then(Render(CeilometerCentral), p6);
    var p4 := Then(MarkDone(InputReady), p5);
    var p3 := Then(ReadSecret(FromTransport), p4);
    var p2 := Then(ReadSecret(FromSpec), p3);
    CollectThen(k, o, Rbac, Then(Transport, p2), spec, x);
    CollectThen(k, o, Transport, p2, spec, x);
    var y := After(k, o, Transport, spec, x);
    CollectThen(k, o, ReadSecret(FromSpec), p3, spec, y);
    y := After(k, o, ReadSecret(FromSpec), spec, y);
    CollectThen(k, o, ReadSecret(FromTransport), p4, spec, y);
    y := After(k, o, ReadSecret(FromTransport), spec, y);
    CollectThen(k, o, MarkDone(InputReady), p5, spec, y);
    CollectThen(k, o, Render(CeilometerCentral), p6, spec, y);
    y := After(k, o, Render(CeilometerCentral), spec, y);
    CollectThen(k, o, Render(CeilometerCompute), End, spec, y);
  }

  /** For every oracle: an Autoscaling pass that reaches the gate has the variables of
      the current inputs, and the recorded hashes as they were read. */
  lemma AodhGateVars(k: Reconciler, o: Oracle, s: Store, cr: Resource)
    requires ToAodhGate(k, o, s, cr).Next?
    ensures var m := ToAodhGate(k, o, s, cr).local.memo;
            m.vars == AodhVars(k, o, cr.spec, cr.status.databaseHostname) && m.status.hash == cr.status.hash
  {
    hide Run, PrepareAutoscaling, Collected, AodhVars;
    PrepareAutoscalingShape(End);
    RunCollects(k, o, PrepareAutoscaling(End), Begin(s, cr));
    CollectAodh(k, o, cr.spec, InputsOf(Begin(s, cr).memo));
  }

  lemma CeilometerGateVars(k: Reconciler, o: Oracle, s: Store, cr: Resource)
    requires ToCeilometerGate(k, o, s, cr).Next?
    ensures var m := ToCeilometerGate(k, o, s, cr).local.memo;
            m.vars == CeilometerVars(o, cr.spec, cr.status) && m.status.hash == cr.status.hash
  {
    hide Run, PrepareCeilometer, Collected, CeilometerVars;
    PrepareCeilometerShape(End);
    RunCollects(k, o, PrepareCeilometer(End), Begin(s, cr));
    CollectCeilometer(k, o, s, cr);
  }
}
