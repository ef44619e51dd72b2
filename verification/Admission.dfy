/** The defaulting webhooks, and how they meet the specs that the Telemetry
    controller copies into its children. */
module Admission {
  import opened Conditions

  function OrElse(value: string, fallback: string): string {
    if value == "" then fallback else value
  }

  // ---------------------------------------------------------------- values

  datatype CeilometerImages = CeilometerImages(
    central: string, notification: string, sgCore: string, compute: string, ipmi: string, nodeExporter: string)

  datatype AodhImages = AodhImages(api: string, evaluator: string, notifier: string, listener: string)

  /** `rest` stands for the fields that no webhook touches. */
  datatype CeilometerSpec = CeilometerSpec(images: CeilometerImages, rest: string)

  datatype AutoscalingSpec = AutoscalingSpec(images: AodhImages, rest: string)

  datatype PersistentStorage = PersistentStorage(request: string, selector: string, storageClass: string)

  datatype Storage = Storage(strategy: string, retention: string, persistent: PersistentStorage)

  datatype MonitoringStack = MonitoringStack(alertingEnabled: bool, scrapeInterval: string, storage: Storage)

  /** A custom stack is opaque, except that it may be the empty struct. */
  type CustomStack = string

  const EMPTY_CUSTOM_STACK: CustomStack := ""

  datatype MetricStorageSpec = MetricStorageSpec(monitoringStack: Option<MonitoringStack>, custom: Option<CustomStack>)

  datatype TelemetrySpec = TelemetrySpec(
    ceilometerEnabled: bool, ceilometer: CeilometerSpec,
    autoscalingEnabled: bool, autoscaling: AutoscalingSpec,
    metricStorageEnabled: bool, metricStorage: MetricStorageSpec)

  datatype TelemetryDefaults = TelemetryDefaults(ceilometer: CeilometerImages, aodh: AodhImages)

  // ---------------------------------------------------------------- what defaulting computes

  function FillCeilometer(d: CeilometerImages, i: CeilometerImages): CeilometerImages {
    CeilometerImages(OrElse(i.central, d.central), OrElse(i.notification, d.notification), OrElse(i.sgCore, d.sgCore),
                     OrElse(i.compute, d.compute), OrElse(i.ipmi, d.ipmi), OrElse(i.nodeExporter, d.nodeExporter))
  }

  function FillAodh(d: AodhImages, i: AodhImages): AodhImages {
    AodhImages(OrElse(i.api, d.api), OrElse(i.evaluator, d.evaluator),
               OrElse(i.notifier, d.notifier), OrElse(i.listener, d.listener))
  }

  function DefaultTelemetry(d: TelemetryDefaults, t: TelemetrySpec): TelemetrySpec {
    t.(ceilometer := t.ceilometer.(images := FillCeilometer(d.ceilometer, t.ceilometer.images)),
       autoscaling := t.autoscaling.(images := FillAodh(d.aodh, t.autoscaling.images)))
  }

  const DEFAULT_SCRAPE_INTERVAL := "30s"
  const DEFAULT_STRATEGY := "persistent"
  const DEFAULT_RETENTION := "24h"
  const DEFAULT_REQUEST := "20G"

  function DefaultStorage(s: Storage): Storage {
    var strategy := OrElse(s.strategy, DEFAULT_STRATEGY);
    Storage(strategy, OrElse(s.retention, DEFAULT_RETENTION),
            if strategy == DEFAULT_STRATEGY
            then s.persistent.(request := OrElse(s.persistent.request, DEFAULT_REQUEST)) else s.persistent)
  }

  function DefaultStack(m: MonitoringStack): MonitoringStack {
    m.(scrapeInterval := OrElse(m.scrapeInterval, DEFAULT_SCRAPE_INTERVAL), storage := DefaultStorage(m.storage))
  }

  const ZERO_STACK := MonitoringStack(false, "", Storage("", "", PersistentStorage("", "", "")))

  function DefaultMetricStorage(s: MetricStorageSpec): MetricStorageSpec {
    if s.monitoringStack.None? && s.custom.None?
    then s.(monitoringStack := Some(DefaultStack(ZERO_STACK.(alertingEnabled := true))))
    else if s.monitoringStack.None? then s
    else s.(monitoringStack := Some(DefaultStack(s.monitoringStack.value)))
  }

  // ---------------------------------------------------------------- the webhooks

  class Ceilometer {
    var centralImage: string
    var notificationImage: string
    var sgCoreImage: string
    var computeImage: string
    var ipmiImage: string
    var nodeExporterImage: string

    function Images(): CeilometerImages
      reads this
    {
      CeilometerImages(centralImage, notificationImage, sgCoreImage, computeImage, ipmiImage, nodeExporterImage)
    }

    method Default(defaults: CeilometerImages)
      modifies this
      ensures Images() == FillCeilometer(defaults, old(Images()))
    {
      if centralImage == "" { centralImage := defaults.central; }
      if notificationImage == "" { notificationImage := defaults.notification; }
      if sgCoreImage == "" { sgCoreImage := defaults.sgCore; }
      if computeImage == "" { computeImage := defaults.compute; }
      if ipmiImage == "" { ipmiImage := defaults.ipmi; }
      if nodeExporterImage == "" { nodeExporterImage := defaults.nodeExporter; }
    }
  }

  class Autoscaling {
    var apiImage: string
    var evaluatorImage: string
    var notifierImage: string
    var listenerImage: string

    function Images(): AodhImages
      reads this
    {
      AodhImages(apiImage, evaluatorImage, notifierImage, listenerImage)
    }

    method Default(defaults: AodhImages)
      modifies this
      ensures Images() == FillAodh(defaults, old(Images()))
    {
      if apiImage == "" { apiImage := defaults.api; }
      if evaluatorImage == "" { evaluatorImage := defaults.evaluator; }
      if notifierImage == "" { notifierImage := defaults.notifier; }
      if listenerImage == "" { listenerImage := defaults.listener; }
    }
  }

  /** The image fields of a Telemetry; its webhook assigns them in its own order. */
  class Telemetry {
    const ceilometer: Ceilometer
    const autoscaling: Autoscaling

    method Default(defaults: TelemetryDefaults)
      modifies ceilometer, autoscaling
      ensures ceilometer.Images() == FillCeilometer(defaults.ceilometer, old(ceilometer.Images()))
      ensures autoscaling.Images() == FillAodh(defaults.aodh, old(autoscaling.Images()))
    {
      DefaultCeilometerImages(defaults.ceilometer);
      DefaultAodhImages(defaults.aodh);
    }

    method DefaultCeilometerImages(defaults: CeilometerImages)
      modifies ceilometer
      ensures ceilometer.Images() == FillCeilometer(defaults, old(ceilometer.Images()))
    {
      if ceilometer.centralImage == "" { ceilometer.centralImage := defaults.central; }
      if ceilometer.computeImage == "" { ceilometer.computeImage := defaults.compute; }
      if ceilometer.ipmiImage == "" { ceilometer.ipmiImage := defaults.ipmi; }
      if ceilometer.notificationImage == "" { ceilometer.notificationImage := defaults.notification; }
      if ceilometer.sgCoreImage == "" { ceilometer.sgCoreImage := defaults.sgCore; }
      if ceilometer.nodeExporterImage == "" { ceilometer.nodeExporterImage := defaults.nodeExporter; }
    }

    method DefaultAodhImages(defaults: AodhImages)
      modifies autoscaling
      ensures autoscaling.Images() == FillAodh(defaults, old(autoscaling.Images()))
    {
      if autoscaling.apiImage == "" { autoscaling.apiImage := defaults.api; }
      if autoscaling.evaluatorImage == "" { autoscaling.evaluatorImage := defaults.evaluator; }
      if autoscaling.notifierImage == "" { autoscaling.notifierImage := defaults.notifier; }
      if autoscaling.listenerImage == "" { autoscaling.listenerImage := defaults.listener; }
    }

    constructor (c: Ceilometer, a: Autoscaling)
      ensures ceilometer == c && autoscaling == a
    {
      ceilometer, autoscaling := c, a;
    }
  }

  class Stack {
    var alertingEnabled: bool
    var scrapeInterval: string
    var strategy: string
    var retention: string
    var persistent: PersistentStorage

    constructor ()
      ensures Value() == ZERO_STACK
    {
      alertingEnabled, scrapeInterval, strategy, retention := false, "", "", "";
      persistent := PersistentStorage("", "", "");
    }

    function Value(): MonitoringStack
      reads this
    {
      MonitoringStack(alertingEnabled, scrapeInterval, Storage(strategy, retention, persistent))
    }

    method DefaultPersistent()
      modifies this`persistent
      ensures persistent == old(persistent).(request := OrElse(old(persistent).request, DEFAULT_REQUEST))
    {
      if persistent.request == "" { persistent := persistent.(request := "20G"); }
    }

    method DefaultStorageFields()
      modifies this`strategy, this`retention, this`persistent
      ensures Value() == old(Value()).(storage := DefaultStorage(old(Value()).storage))
    {
      if strategy == "" { strategy := "persistent"; }
      if retention == "" { retention := "24h"; }
      if strategy == "persistent" { DefaultPersistent(); }
    }

    method Default()
      modifies this
      ensures Value() == DefaultStack(old(Value()))
    {
      if scrapeInterval == "" { scrapeInterval := "30s"; }
      DefaultStorageFields();
    }
  }

  class MetricStorage {
    var monitoringStack: Stack?
    var customMonitoringStack: Option<CustomStack>

    function Value(): MetricStorageSpec
      reads this, monitoringStack
    {
      MetricStorageSpec(if monitoringStack == null then None else Some(monitoringStack.Value()), customMonitoringStack)
    }

    method Default()
      modifies this`monitoringStack, monitoringStack
      ensures Value() == DefaultMetricStorage(old(Value()))
      ensures monitoringStack == old(monitoringStack) || fresh(monitoringStack)
    {
      if monitoringStack == null && customMonitoringStack.None? {
        monitoringStack := new Stack();
        monitoringStack.alertingEnabled := true;
      }
      if monitoringStack != null { monitoringStack.Default(); }
    }
  }

  // ---------------------------------------------------------------- the copy into a child

  /** The mutate function for a MetricStorage child: only what is set is copied. */
  function CopyMetricStorage(parent: MetricStorageSpec, child: MetricStorageSpec): MetricStorageSpec {
    MetricStorageSpec(if parent.monitoringStack.Some? then parent.monitoringStack else child.monitoringStack,
                      if parent.custom.Some? then parent.custom else child.custom)
  }

  /** One round of copying and admission. */
  function SyncMetricStorage(parent: MetricStorageSpec, child: MetricStorageSpec): MetricStorageSpec {
    DefaultMetricStorage(CopyMetricStorage(parent, child))
  }

  /** A blank that the parent's defaults leave and the child's would fill. */
  predicate Gap(value: string, parent: string, child: string) {
    value == "" && parent == "" && child != ""
  }

  predicate CeilometerGap(i: CeilometerImages, p: CeilometerImages, c: CeilometerImages) {
    || Gap(i.central, p.central, c.central) || Gap(i.notification, p.notification, c.notification)
    || Gap(i.sgCore, p.sgCore, c.sgCore) || Gap(i.compute, p.compute, c.compute)
    || Gap(i.ipmi, p.ipmi, c.ipmi) || Gap(i.nodeExporter, p.nodeExporter, c.nodeExporter)
  }

  predicate AodhGap(i: AodhImages, p: AodhImages, c: AodhImages) {
    || Gap(i.api, p.api, c.api) || Gap(i.evaluator, p.evaluator, c.evaluator)
    || Gap(i.notifier, p.notifier, c.notifier) || Gap(i.listener, p.listener, c.listener)
  }

  /** A Ceilometer copied from a defaulted Telemetry is left alone by its own
      webhook exactly when there is no image that only the child has a default for. */
  lemma CeilometerCopySettles(p: TelemetryDefaults, c: CeilometerImages, t: TelemetrySpec)
    ensures var copied := DefaultTelemetry(p, t).ceilometer.images;
            FillCeilometer(c, copied) == copied <==> !CeilometerGap(t.ceilometer.images, p.ceilometer, c)
  {
  }

  lemma AutoscalingCopySettles(p: TelemetryDefaults, c: AodhImages, t: TelemetrySpec)
    ensures var copied := DefaultTelemetry(p, t).autoscaling.images;
            FillAodh(c, copied) == copied <==> !AodhGap(t.autoscaling.images, p.aodh, c)
  {
  }

  predicate NonEmpty(d: TelemetryDefaults) {
    var c, a := d.ceilometer, d.aodh;
    && c.central != "" && c.notification != "" && c.sgCore != "" && c.compute != "" && c.ipmi != ""
    && c.nodeExporter != ""
    && a.api != "" && a.evaluator != "" && a.notifier != "" && a.listener != ""
  }

  /** With non-empty image defaults the copies of a Telemetry need no defaulting,
      whatever the defaults of the children are. */
  lemma CopiesSettle(p: TelemetryDefaults, c: CeilometerImages, a: AodhImages, t: TelemetrySpec)
    requires NonEmpty(p)
    ensures var d := DefaultTelemetry(p, t);
            FillCeilometer(c, d.ceilometer.images) == d.ceilometer.images
            && FillAodh(a, d.autoscaling.images) == d.autoscaling.images
  {
  }

  /** The first of three strings that is set. */
  predicate FirstSet(value: string, a: string, b: string, c: string) {
    value == if a != "" then a else if b != "" then b else c
  }

  /** The images of a child, from the section of a Telemetry through its webhook, the copy
      and the child's webhook: the section's own, or else the default of Telemetry, or
      else that of the child. Nothing but images is touched. */
  lemma ImagesOfChildren(p: TelemetryDefaults, c: CeilometerImages, a: AodhImages, t: TelemetrySpec)
    ensures var d := DefaultTelemetry(p, t);
            && d == t.(ceilometer := t.ceilometer.(images := d.ceilometer.images),
                       autoscaling := t.autoscaling.(images := d.autoscaling.images))
    ensures var x, i := FillCeilometer(c, DefaultTelemetry(p, t).ceilometer.images), t.ceilometer.images;
            && FirstSet(x.central, i.central, p.ceilometer.central, c.central)
            && FirstSet(x.notification, i.notification, p.ceilometer.notification, c.notification)
            && FirstSet(x.sgCore, i.sgCore, p.ceilometer.sgCore, c.sgCore)
            && FirstSet(x.compute, i.compute, p.ceilometer.compute, c.compute)
            && FirstSet(x.ipmi, i.ipmi, p.ceilometer.ipmi, c.ipmi)
            && FirstSet(x.nodeExporter, i.nodeExporter, p.ceilometer.nodeExporter, c.nodeExporter)
    ensures var x, i := FillAodh(a, DefaultTelemetry(p, t).autoscaling.images), t.autoscaling.images;
            && FirstSet(x.api, i.api, p.aodh.api, a.api)
            && FirstSet(x.evaluator, i.evaluator, p.aodh.evaluator, a.evaluator)
            && FirstSet(x.notifier, i.notifier, p.aodh.notifier, a.notifier)
            && FirstSet(x.listener, i.listener, p.aodh.listener, a.listener)
  {
  }

  /** Copying and admitting a MetricStorage twice is doing it once, even though the
      parent's section is never defaulted itself. */
  lemma MetricStorageSettles(parent: MetricStorageSpec, child: MetricStorageSpec)
    ensures var once := SyncMetricStorage(parent, child);
            SyncMetricStorage(parent, once) == once && DefaultMetricStorage(once) == once
  {
  }

  // ---------------------------------------------------------------- start-up

  datatype Variable =
    | CentralImage | SgCoreImage | NotificationImage | ComputeImage | IpmiImage | NodeExporterImage

  /** GetEnvVar: the variable of the environment, or the built-in image. */
  function GetEnvVar(env: map<Variable, string>, builtIn: Variable -> string, v: Variable): string {
    if v in env then env[v] else builtIn(v)
  }

  /** SetupDefaultsCeilometer, which leaves the node exporter image out. */
  function SetupCeilometer(env: map<Variable, string>, builtIn: Variable -> string): CeilometerImages {
    CeilometerImages(
      GetEnvVar(env, builtIn, CentralImage), GetEnvVar(env, builtIn, NotificationImage),
      GetEnvVar(env, builtIn, SgCoreImage), GetEnvVar(env, builtIn, ComputeImage),
      GetEnvVar(env, builtIn, IpmiImage), "")
  }

  /** The Ceilometer part of SetupDefaultsTelemetry, which has it. */
  function SetupTelemetry(env: map<Variable, string>, builtIn: Variable -> string): CeilometerImages {
    SetupCeilometer(env, builtIn).(nodeExporter := GetEnvVar(env, builtIn, NodeExporterImage))
  }

  /** An image that was set, or that of its variable, or the built-in one. */
  predicate FromEnv(value: string, own: string, env: map<Variable, string>, builtIn: Variable -> string, v: Variable) {
    value == if own != "" then own else if v in env then env[v] else builtIn(v)
  }

  /** A blank node exporter image of a Ceilometer is filled exactly when it comes
      from a Telemetry; a Ceilometer created on its own keeps it blank, for every
      environment. All the other images are treated alike. */
  lemma NodeExporterOnlyFromTelemetry(env: map<Variable, string>, builtIn: Variable -> string, i: CeilometerImages)
    requires forall v :: GetEnvVar(env, builtIn, v) != ""
    ensures var alone := FillCeilometer(SetupCeilometer(env, builtIn), i);
            var parent := FillCeilometer(SetupTelemetry(env, builtIn), i);
            && parent.nodeExporter != ""
            && (alone.nodeExporter == "" <==> i.nodeExporter == "")
            && alone == parent.(nodeExporter := i.nodeExporter)
            && FromEnv(alone.central, i.central, env, builtIn, CentralImage)
            && FromEnv(alone.notification, i.notification, env, builtIn, NotificationImage)
            && FromEnv(alone.sgCore, i.sgCore, env, builtIn, SgCoreImage)
            && FromEnv(alone.compute, i.compute, env, builtIn, ComputeImage)
            && FromEnv(alone.ipmi, i.ipmi, env, builtIn, IpmiImage)
            && FromEnv(parent.nodeExporter, i.nodeExporter, env, builtIn, NodeExporterImage)
  {
  }
}
