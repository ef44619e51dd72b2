/** The names under which the inputs of a pass are hashed, and what the resulting
    hash can tell apart. */
module InputHash {
  import opened Cluster
  import opened Stages
  import opened Programs
  import opened Convergence
  import opened CeilometerConvergence
  import opened GateInputs

  function ServiceName(s: Service): string {
    match s
    case Aodh => "aodh"
    case CeilometerCentral => "ceilometer"
    case CeilometerCompute => "ceilometer-compute"
  }

  const SECRET_PREFIX := "secret-"

  /** The key of the environment map under which an input is filed. */
  function VarName(v: Var): string {
    match v
    case SecretVar(name) => SECRET_PREFIX + name
    case ScriptsVar(s) => ServiceName(s) + "-scripts"
    case ConfigVar(s) => ServiceName(s) + "-config-data"
  }

  lemma PrefixApart(s: string, name: string)
    requires |s| == 0 || s[0] != 's'
    ensures s != SECRET_PREFIX + name
  {
  }

  lemma PrefixCancels(a: string, b: string)
    requires SECRET_PREFIX + a == SECRET_PREFIX + b
    ensures a == b
  {
    assert (SECRET_PREFIX + a)[|SECRET_PREFIX|..] == a;
    assert (SECRET_PREFIX + b)[|SECRET_PREFIX|..] == b;
  }

  lemma SuffixesApart(a: string, b: string)
    ensures a + "-scripts" != b + "-config-data"
  {
    var x := a + "-scripts";
    var y := b + "-config-data";
    assert x[|x| - 1] == 's' && y[|y| - 1] == 'a';
  }

  lemma SuffixCancels(a: string, b: string, suffix: string)
    requires a + suffix == b + suffix
    ensures a == b
  {
    assert (a + suffix)[..|a|] == a;
    assert (b + suffix)[..|b|] == b;
  }

  lemma ServiceNameInjective(s: Service, t: Service)
    requires ServiceName(s) == ServiceName(t)
    ensures s == t
  {
  }

  /** A generated name starts with the name of a service, never with "secret-". */
  lemma GeneratedApart(v: Var, name: string)
    requires !v.SecretVar?
    ensures VarName(v) != SECRET_PREFIX + name
  {
    assert "aodh"[0] == 'a' && "ceilometer"[0] == 'c' && "ceilometer-compute"[0] == 'c';
    assert VarName(v)[0] == ServiceName(v.service)[0];
    PrefixApart(VarName(v), name);
  }

  /** No two inputs are ever filed under the same name, whatever the secrets are
      called. */
  lemma VarNameInjective(v: Var, w: Var)
    ensures VarName(v) == VarName(w) <==> v == w
  {
    if VarName(v) == VarName(w) {
      hide ServiceName;
      if v.SecretVar? && w.SecretVar? {
        PrefixCancels(v.name, w.name);
      } else if v.SecretVar? {
        GeneratedApart(w, v.name);
      } else if w.SecretVar? {
        GeneratedApart(v, w.name);
      } else if v.ScriptsVar? != w.ScriptsVar? {
        SuffixesApart(ServiceName(v.service), ServiceName(w.service));
        SuffixesApart(ServiceName(w.service), ServiceName(v.service));
      } else {
        SuffixCancels(ServiceName(v.service), ServiceName(w.service),
                      if v.ScriptsVar? then "-scripts" else "-config-data");
        ServiceNameInjective(v.service, w.service);
      }
    }
  }

  /** The environment map that is hashed: names and hashes of the inputs. */
  ghost predicate Files(env: map<string, string>, vars: map<Var, string>) {
    && (forall v :: v in vars ==> VarName(v) in env && env[VarName(v)] == vars[v])
    && (forall n :: n in env ==> exists v :: v in vars && VarName(v) == n)
  }

  /** Two passes file equal environment maps exactly when their inputs agree. */
  lemma FilesFaithfully(
    env1: map<string, string>, vars1: map<Var, string>, env2: map<string, string>, vars2: map<Var, string>)
    requires Files(env1, vars1) && Files(env2, vars2)
    ensures env1 == env2 <==> vars1 == vars2
  {
    if env1 == env2 {
      FilesWithin(env1, vars1, vars2);
      FilesWithin(env1, vars2, vars1);
      assert vars1.Keys == vars2.Keys;
    }
    if vars1 == vars2 {
      forall n ensures n in env1 ==> n in env2 && env1[n] == env2[n] {}
      forall n ensures n in env2 ==> n in env1 && env1[n] == env2[n] {}
      assert env1.Keys == env2.Keys;
    }
  }

  lemma FilesWithin(env: map<string, string>, vars1: map<Var, string>, vars2: map<Var, string>)
    requires Files(env, vars1) && Files(env, vars2)
    ensures forall v :: v in vars1 ==> v in vars2 && vars1[v] == vars2[v]
  {
    forall v | v in vars1
      ensures v in vars2 && vars1[v] == vars2[v]
    {
      var w :| w in vars2 && VarName(w) == VarName(v);
      VarNameInjective(v, w);
    }
  }

  /** What is filed for an Autoscaling pass: the hash of each secret under its name, and
      those of the scripts and of the configuration. */
  lemma AodhFiles(env: map<string, string>, k: Reconciler, o: Oracle, spec: Spec, hostname: string)
    requires Files(env, AodhVars(k, o, spec, hostname))
    ensures env.Keys == {"secret-" + spec.secret, "secret-" + o.transportSecret, "aodh-scripts", "aodh-config-data"}
    ensures env["secret-" + spec.secret] == o.secretHash(spec.secret)
    ensures env["secret-" + o.transportSecret] == o.secretHash(o.transportSecret)
    ensures env["aodh-scripts"] == o.scripts(Aodh)
  {
    var vars := AodhVars(k, o, spec, hostname);
    AodhNames();
    var keys := {"secret-" + spec.secret, "secret-" + o.transportSecret, "aodh-scripts", "aodh-config-data"};
    assert SecretVar(spec.secret) in vars && SecretVar(o.transportSecret) in vars;
    assert ScriptsVar(Aodh) in vars && ConfigVar(Aodh) in vars;
    hide VarName, AodhVars;
    forall n | n in env
      ensures n in keys
    {
      var v :| v in vars && VarName(v) == n;
      AodhVarIs(k, o, spec, hostname, v);
    }
    assert VarName(SecretVar(spec.secret)) in env && VarName(SecretVar(o.transportSecret)) in env;
    assert VarName(ScriptsVar(Aodh)) in env && VarName(ConfigVar(Aodh)) in env;
    AodhValues(k, o, spec, hostname);
  }

  lemma AodhNames()
    ensures forall n :: VarName(SecretVar(n)) == "secret-" + n
    ensures VarName(ScriptsVar(Aodh)) == "aodh-scripts" && VarName(ConfigVar(Aodh)) == "aodh-config-data"
  {
    assert "aodh" + "-scripts" == "aodh-scripts";
    assert "aodh" + "-config-data" == "aodh-config-data";
  }

  lemma AodhVarIs(k: Reconciler, o: Oracle, spec: Spec, hostname: string, v: Var)
    requires v in AodhVars(k, o, spec, hostname)
    ensures v in {SecretVar(spec.secret), SecretVar(o.transportSecret), ScriptsVar(Aodh), ConfigVar(Aodh)}
  {
  }

  lemma AodhValues(k: Reconciler, o: Oracle, spec: Spec, hostname: string)
    ensures var vars := AodhVars(k, o, spec, hostname);
            && SecretVar(spec.secret) in vars && SecretVar(o.transportSecret) in vars && ScriptsVar(Aodh) in vars
            && vars[SecretVar(spec.secret)] == o.secretHash(spec.secret)
            && vars[SecretVar(o.transportSecret)] == o.secretHash(o.transportSecret)
            && vars[ScriptsVar(Aodh)] == o.scripts(Aodh)
  {
  }

  // ---------------------------------------------------------------- what the gate sees

  /** The hash distinguishes variable maps, as ObjectHash over MergeEnvs does. */
  ghost predicate Distinguishes(k: Reconciler) {
    forall v, w :: k.objectHash(v) == k.objectHash(w) ==> v == w
  }

  /** What the gate makes of a local state: the pass ends, silently and with the hash of
      its variables recorded, exactly when they are not the recorded ones. */
  lemma GateFires(k: Reconciler, o: Oracle, rest: Program, l: Local, recorded: map<Var, string>)
    requires Distinguishes(k) && o.reply(Gate).err.Nil?
    requires Lookup(l.memo.status.hash, InputHash) == k.objectHash(recorded)
    ensures var f := Step(k, o, Gate, l);
            && (f.Stop? <==> l.memo.vars != recorded)
            && (f.Stop? ==> f.result == DONE && Lookup(f.local.memo.status.hash, InputHash) == k.objectHash(l.memo.vars)
                            && Run(k, o, Then(Gate, rest), l) == f)
  {
  }

  /** For every oracle: an Autoscaling pass that reaches the gate ends there if and only
      if the variables of its inputs differ from the ones whose hash is recorded. */
  lemma AodhGateFires(k: Reconciler, o: Oracle, b: bool, s: Store, cr: Resource, recorded: map<Var, string>)
    requires Distinguishes(k) && o.reply(Gate).err.Nil?
    requires Lookup(cr.status.hash, InputHash) == k.objectHash(recorded)
    ensures var g := ToAodhGate(k, o, s, cr);
            var vars := AodhVars(k, o, cr.spec, cr.status.databaseHostname);
            g.Next? ==>
              var f := Step(k, o, Gate, g.local);
              && (f.Stop? <==> vars != recorded)
              && (f.Stop? ==> f.result == DONE && Lookup(f.local.memo.status.hash, InputHash) == k.objectHash(vars)
                              && Run(k, o, AutoscalingProgram(b), Begin(s, cr)) == f)
  {
    hide Run, ToAodhGate, AodhVars, AutoscalingProgram, Step, InitAodh, NormalAodh, Distinguishes;
    if ToAodhGate(k, o, s, cr).Next? {
      AodhGateVars(k, o, s, cr);
      AutoscalingViaGate(k, o, b, s, cr);
      GateFires(k, o, InitAodh(NormalAodh(b, End)), ToAodhGate(k, o, s, cr).local, recorded);
    }
  }

  /** The same for Ceilometer. */
  lemma CeilometerGateFires(k: Reconciler, o: Oracle, s: Store, cr: Resource, recorded: map<Var, string>)
    requires Distinguishes(k) && o.reply(Gate).err.Nil?
    requires Lookup(cr.status.hash, InputHash) == k.objectHash(recorded)
    ensures var g := ToCeilometerGate(k, o, s, cr);
            var vars := CeilometerVars(o, cr.spec, cr.status);
            g.Next? ==>
              var f := Step(k, o, Gate, g.local);
              && (f.Stop? <==> vars != recorded)
              && (f.Stop? ==> f.result == DONE && Lookup(f.local.memo.status.hash, InputHash) == k.objectHash(vars)
                              && Run(k, o, CeilometerProgram(), Begin(s, cr)) == f)
  {
    hide Run, ToCeilometerGate, CeilometerVars, CeilometerProgram, Step, ServeCeilometer, Distinguishes;
    if ToCeilometerGate(k, o, s, cr).Next? {
      CeilometerGateVars(k, o, s, cr);
      CeilometerViaGate(k, o, s, cr);
      GateFires(k, o, ServeCeilometer(End), ToCeilometerGate(k, o, s, cr).local, recorded);
    }
  }

  /** The secrets that a pass reads, by name. */
  function Secrets(o: Oracle, spec: Spec): map<string, string> {
    map[][spec.secret := o.secretHash(spec.secret)][o.transportSecret := o.secretHash(o.transportSecret)]
  }

  /** The two layers of the variable map: secrets and generated configuration. */
  lemma AodhSecretLayer(k: Reconciler, o: Oracle, spec: Spec, hostname: string, name: string)
    ensures var vars := AodhVars(k, o, spec, hostname);
            && (SecretVar(name) in vars <==> name in Secrets(o, spec))
            && (name in Secrets(o, spec) ==> vars[SecretVar(name)] == Secrets(o, spec)[name])
            && ScriptsVar(Aodh) in vars && vars[ScriptsVar(Aodh)] == o.scripts(Aodh)
            && ConfigVar(Aodh) in vars && vars[ConfigVar(Aodh)] == AodhConfig(k, o, spec, hostname)
  {
  }

  function AodhConfig(k: Reconciler, o: Oracle, spec: Spec, hostname: string): string {
    o.config(Aodh, RenderInput(o.transportSecret, PromHost(k, spec), PromPort(spec), hostname))
  }

  /** For every two oracles: two Autoscaling passes that reach the gate hash the same
      exactly when they read the same secrets with the same contents and rendered the
      same scripts and configuration. */
  lemma AodhHashSees(k: Reconciler, o: Oracle, s: Store, cr: Resource, o': Oracle, s': Store, cr': Resource)
    requires Distinguishes(k)
    requires ToAodhGate(k, o, s, cr).Next? && ToAodhGate(k, o', s', cr').Next?
    ensures k.objectHash(ToAodhGate(k, o, s, cr).local.memo.vars) ==
              k.objectHash(ToAodhGate(k, o', s', cr').local.memo.vars) <==>
              && Secrets(o, cr.spec) == Secrets(o', cr'.spec)
              && o.scripts(Aodh) == o'.scripts(Aodh)
              && AodhConfig(k, o, cr.spec, cr.status.databaseHostname) ==
                 AodhConfig(k, o', cr'.spec, cr'.status.databaseHostname)
  {
    hide ToAodhGate, AodhConfig, Secrets, AodhVars;
    AodhGateVars(k, o, s, cr);
    AodhGateVars(k, o', s', cr');
    AodhInputsAgree(k, o, cr.spec, cr.status.databaseHostname, o', cr'.spec, cr'.status.databaseHostname);
  }

  /** The variables of two passes are equal exactly when their inputs are. */
  lemma AodhInputsAgree(
    k: Reconciler, o: Oracle, spec: Spec, hostname: string, o': Oracle, spec': Spec, hostname': string)
    ensures AodhVars(k, o, spec, hostname) == AodhVars(k, o', spec', hostname') <==>
              && Secrets(o, spec) == Secrets(o', spec')
              && o.scripts(Aodh) == o'.scripts(Aodh)
              && AodhConfig(k, o, spec, hostname) == AodhConfig(k, o', spec', hostname')
  {
    var v, w := AodhVars(k, o, spec, hostname), AodhVars(k, o', spec', hostname');
    hide AodhVars, AodhConfig, Secrets;
    AodhSecretLayer(k, o, spec, hostname, spec.secret);
    AodhSecretLayer(k, o', spec', hostname', spec.secret);
    if v == w {
      AodhSecretsAgree(k, o, spec, hostname, o', spec', hostname');
    } else if Secrets(o, spec) == Secrets(o', spec') && o.scripts(Aodh) == o'.scripts(Aodh)
              && AodhConfig(k, o, spec, hostname) == AodhConfig(k, o', spec', hostname') {
      AodhVarsAgree(k, o, spec, hostname, o', spec', hostname');
    }
  }

  lemma AodhSecretsAgree(
    k: Reconciler, o: Oracle, spec: Spec, hostname: string, o': Oracle, spec': Spec, hostname': string)
    requires AodhVars(k, o, spec, hostname) == AodhVars(k, o', spec', hostname')
    ensures Secrets(o, spec) == Secrets(o', spec')
  {
    hide AodhVars, Secrets;
    forall n
      ensures n in Secrets(o, spec) <==> n in Secrets(o', spec')
      ensures n in Secrets(o, spec) && n in Secrets(o', spec') ==> Secrets(o, spec)[n] == Secrets(o', spec')[n]
    {
      AodhSecretLayer(k, o, spec, hostname, n);
      AodhSecretLayer(k, o', spec', hostname', n);
    }
    assert Secrets(o, spec).Keys == Secrets(o', spec').Keys;
  }

  lemma AodhVarsAgree(
    k: Reconciler, o: Oracle, spec: Spec, hostname: string, o': Oracle, spec': Spec, hostname': string)
    requires Secrets(o, spec) == Secrets(o', spec') && o.scripts(Aodh) == o'.scripts(Aodh)
    requires AodhConfig(k, o, spec, hostname) == AodhConfig(k, o', spec', hostname')
    ensures AodhVars(k, o, spec, hostname) == AodhVars(k, o', spec', hostname')
  {
    var v, w := AodhVars(k, o, spec, hostname), AodhVars(k, o', spec', hostname');
    forall x: Var
      ensures x in v <==> x in w
      ensures x in v && x in w ==> v[x] == w[x]
    {
      if x.SecretVar? {
        AodhSecretLayer(k, o, spec, hostname, x.name);
        AodhSecretLayer(k, o', spec', hostname', x.name);
      }
    }
    assert v.Keys == w.Keys;
  }

  /** The rendered part of a Ceilometer pass: both services, scripts and config. */
  function CeilometerRendered(o: Oracle, st: Status): (string, string, string, string) {
    var input := RenderInputOf(st.(transportURLSecret := o.transportSecret));
    (o.scripts(CeilometerCentral), o.config(CeilometerCentral, input),
     o.scripts(CeilometerCompute), o.config(CeilometerCompute, input))
  }

  lemma CeilometerSecretLayer(o: Oracle, spec: Spec, st: Status, name: string)
    ensures var vars := CeilometerVars(o, spec, st);
            && (SecretVar(name) in vars <==> name in Secrets(o, spec))
            && (name in Secrets(o, spec) ==> vars[SecretVar(name)] == Secrets(o, spec)[name])
  {
  }

  lemma CeilometerRenderedLayer(o: Oracle, spec: Spec, st: Status)
    ensures var vars := CeilometerVars(o, spec, st);
            && ScriptsVar(CeilometerCentral) in vars && ConfigVar(CeilometerCentral) in vars
            && ScriptsVar(CeilometerCompute) in vars && ConfigVar(CeilometerCompute) in vars
            && CeilometerRendered(o, st) ==
               (vars[ScriptsVar(CeilometerCentral)], vars[ConfigVar(CeilometerCentral)],
                vars[ScriptsVar(CeilometerCompute)], vars[ConfigVar(CeilometerCompute)])
    ensures forall s :: s != CeilometerCentral && s != CeilometerCompute ==>
              ScriptsVar(s) !in CeilometerVars(o, spec, st) && ConfigVar(s) !in CeilometerVars(o, spec, st)
  {
  }

  lemma CeilometerSecretsAgree(o: Oracle, cr: Resource, o': Oracle, cr': Resource)
    requires CeilometerVars(o, cr.spec, cr.status) == CeilometerVars(o', cr'.spec, cr'.status)
    ensures Secrets(o, cr.spec) == Secrets(o', cr'.spec)
  {
    hide CeilometerVars, Secrets;
    var a, b := Secrets(o, cr.spec), Secrets(o', cr'.spec);
    forall n
      ensures n in a <==> n in b
      ensures n in a && n in b ==> a[n] == b[n]
    {
      CeilometerSecretLayer(o, cr.spec, cr.status, n);
      CeilometerSecretLayer(o', cr'.spec, cr'.status, n);
    }
    assert a.Keys == b.Keys;
  }

  lemma CeilometerVarsAgree(o: Oracle, cr: Resource, o': Oracle, cr': Resource)
    requires Secrets(o, cr.spec) == Secrets(o', cr'.spec)
    requires CeilometerRendered(o, cr.status) == CeilometerRendered(o', cr'.status)
    ensures CeilometerVars(o, cr.spec, cr.status) == CeilometerVars(o', cr'.spec, cr'.status)
  {
    hide CeilometerVars, Secrets, CeilometerRendered;
    var v, w := CeilometerVars(o, cr.spec, cr.status), CeilometerVars(o', cr'.spec, cr'.status);
    CeilometerRenderedLayer(o, cr.spec, cr.status);
    CeilometerRenderedLayer(o', cr'.spec, cr'.status);
    forall x: Var
      ensures x in v <==> x in w
      ensures x in v && x in w ==> v[x] == w[x]
    {
      if x.SecretVar? {
        CeilometerSecretLayer(o, cr.spec, cr.status, x.name);
        CeilometerSecretLayer(o', cr'.spec, cr'.status, x.name);
      }
    }
    assert v.Keys == w.Keys;
  }

  /** The same for Ceilometer, which renders two services. */
  lemma CeilometerHashSees(k: Reconciler, o: Oracle, s: Store, cr: Resource, o': Oracle, s': Store, cr': Resource)
    requires Distinguishes(k)
    requires ToCeilometerGate(k, o, s, cr).Next? && ToCeilometerGate(k, o', s', cr').Next?
    ensures k.objectHash(ToCeilometerGate(k, o, s, cr).local.memo.vars) ==
              k.objectHash(ToCeilometerGate(k, o', s', cr').local.memo.vars) <==>
              && Secrets(o, cr.spec) == Secrets(o', cr'.spec)
              && CeilometerRendered(o, cr.status) == CeilometerRendered(o', cr'.status)
  {
    hide ToCeilometerGate, Secrets, CeilometerRendered, CeilometerVars;
    CeilometerGateVars(k, o, s, cr);
    CeilometerGateVars(k, o', s', cr');
    CeilometerInputsAgree(o, cr, o', cr');
  }

  lemma CeilometerInputsAgree(o: Oracle, cr: Resource, o': Oracle, cr': Resource)
    ensures CeilometerVars(o, cr.spec, cr.status) == CeilometerVars(o', cr'.spec, cr'.status) <==>
              && Secrets(o, cr.spec) == Secrets(o', cr'.spec)
              && CeilometerRendered(o, cr.status) == CeilometerRendered(o', cr'.status)
  {
    hide CeilometerVars, Secrets, CeilometerRendered;
    if CeilometerVars(o, cr.spec, cr.status) == CeilometerVars(o', cr'.spec, cr'.status) {
      CeilometerSecretsAgree(o, cr, o', cr');
      CeilometerRenderedLayer(o, cr.spec, cr.status);
      CeilometerRenderedLayer(o', cr'.spec, cr'.status);
    } else if Secrets(o, cr.spec) == Secrets(o', cr'.spec)
              && CeilometerRendered(o, cr.status) == CeilometerRendered(o', cr'.status) {
      CeilometerVarsAgree(o, cr, o', cr');
    }
  }
}
