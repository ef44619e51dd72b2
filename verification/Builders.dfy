/** The resources that MetricStorage builds from its spec. */
module Builders {
  import opened Conditions
  import opened Admission

  datatype BuildError = StackIsNil | BadQuantity(text: string)

  datatype Result<T> = Ok(value: T) | Err(error: BuildError)

  /** A claim: nil selector and storage class are None. */
  datatype Claim = Claim(selector: Option<string>, storageClass: Option<string>, quantity: int)

  datatype StackSpec =
    | FromOptions(alertmanagerDisabled: bool, claim: Option<Claim>, retention: string)
    | FromCustom(custom: CustomStack)

  /** resource.ParseQuantity, as an unknown partial function that accepts the default. */
  type Quantities = q: string -> Option<int> | q(DEFAULT_REQUEST).Some? witness ((s: string) => Some(0))

  function RequestOf(s: Storage): string {
    OrElse(s.persistent.request, DEFAULT_REQUEST)
  }

  /** A field that is left out when it is blank. */
  predicate Optional(field: Option<string>, value: string) {
    if value == "" then field.None? else field == Some(value)
  }

  function ClaimOf(s: Storage, parse: Quantities): Result<Option<Claim>> {
    if s.strategy != "persistent" then Ok(None)
    else if parse(RequestOf(s)).None? then Err(BadQuantity(RequestOf(s)))
    else Ok(Some(Claim(if s.persistent.selector == "" then None else Some(s.persistent.selector),
                       if s.persistent.storageClass == "" then None else Some(s.persistent.storageClass),
                       parse(RequestOf(s)).value)))
  }

  /** getPVCSpec: a persistent stack claims the quantity that it asks for, 20G if it asks
      for none; the selector and the class are set where they are not blank. */
  method GetPVCSpec(s: Storage, parse: Quantities) returns (r: Result<Option<Claim>>)
    ensures r == ClaimOf(s, parse)
    ensures s.strategy != "persistent" ==> r == Ok(None)
    ensures s.strategy == "persistent" ==>
              var asked := if s.persistent.request != "" then s.persistent.request else "20G";
              && (r.Err? <==> parse(asked).None?)
              && (r.Err? ==> r.error == BadQuantity(asked))
              && (r.Ok? ==> r.value.Some? && parse(asked) == Some(r.value.value.quantity)
                            && Optional(r.value.value.selector, s.persistent.selector)
                            && Optional(r.value.value.storageClass, s.persistent.storageClass))
  {
    if s.strategy == "persistent" {
      var claim := Claim(None, None, 0);
      if s.persistent.selector != "" { claim := claim.(selector := Some(s.persistent.selector)); }
      if s.persistent.storageClass != "" { claim := claim.(storageClass := Some(s.persistent.storageClass)); }
      var text := s.persistent.request;
      if text == "" { text := DEFAULT_REQUEST; }
      var quantity := parse(text);
      if quantity.None? { return Err(BadQuantity(text)); }
      claim := claim.(quantity := quantity.value);
      return Ok(Some(claim));
    }
    return Ok(None);
  }

  /** MonitoringStack. */
  function BuildStack(m: Option<MonitoringStack>, parse: Quantities): Result<StackSpec> {
    if m.None? then Err(StackIsNil)
    else
      match ClaimOf(m.value.storage, parse)
      case Err(e) => Err(e)
      case Ok(claim) => Ok(FromOptions(!m.value.alertingEnabled, claim, m.value.storage.retention))
  }

  /** What a built stack says about the options it was built from. */
  lemma BuildStackReflects(m: MonitoringStack, parse: Quantities)
    ensures var asked := if m.storage.persistent.request != "" then m.storage.persistent.request else "20G";
            BuildStack(Some(m), parse).Err? <==> m.storage.strategy == "persistent" && parse(asked).None?
    ensures BuildStack(Some(m), parse).Ok? ==>
              var x := BuildStack(Some(m), parse).value;
              var asked := if m.storage.persistent.request != "" then m.storage.persistent.request else "20G";
              && x.FromOptions? && x.alertmanagerDisabled != m.alertingEnabled && x.retention == m.storage.retention
              && (x.claim.Some? <==> m.storage.strategy == "persistent")
              && (x.claim.Some? ==>
                    && parse(asked) == Some(x.claim.value.quantity)
                    && Optional(x.claim.value.selector, m.storage.persistent.selector)
                    && Optional(x.claim.value.storageClass, m.storage.persistent.storageClass))
  {
  }

  predicate UsesCustom(s: MetricStorageSpec) {
    s.custom.Some? && s.custom.value != EMPTY_CUSTOM_STACK
  }

  /** The stack that a MetricStorage pass writes. */
  function Build(s: MetricStorageSpec, parse: Quantities): Result<StackSpec> {
    if UsesCustom(s) then Ok(FromCustom(s.custom.value)) else BuildStack(s.monitoringStack, parse)
  }

  function ScrapeInterval(s: MetricStorageSpec): string {
    if s.monitoringStack.Some? && s.monitoringStack.value.scrapeInterval != ""
    then s.monitoringStack.value.scrapeInterval else DEFAULT_SCRAPE_INTERVAL
  }

  datatype ScrapeConfig = ScrapeConfig(interval: string, targets: seq<string>)

  function BuildScrapeConfig(s: MetricStorageSpec, targets: seq<string>): ScrapeConfig {
    ScrapeConfig(ScrapeInterval(s), targets)
  }

  // ---------------------------------------------------------------- defaulting and building

  /** The stack that is deployed: a custom stack that is set and not empty, or else the one
      built from the options, of which there have to be any. */
  lemma BuildChooses(s: MetricStorageSpec, parse: Quantities)
    ensures s.custom.Some? && s.custom.value != "" ==> Build(s, parse) == Ok(FromCustom(s.custom.value))
    ensures s.custom.None? || s.custom.value == "" ==> Build(s, parse) == BuildStack(s.monitoringStack, parse)
    ensures BuildStack(None, parse) == Err(StackIsNil)
  {
  }

  /** The scrape configuration has the stack's own interval where that is set, and 30
      seconds otherwise; it does not depend on whether the webhook ran. */
  lemma ScrapeConfigCommutes(s: MetricStorageSpec, targets: seq<string>)
    ensures BuildScrapeConfig(DefaultMetricStorage(s), targets) == BuildScrapeConfig(s, targets)
    ensures BuildScrapeConfig(s, targets).targets == targets
    ensures BuildScrapeConfig(s, targets).interval ==
              if s.monitoringStack.None? || s.monitoringStack.value.scrapeInterval == "" then "30s"
              else s.monitoringStack.value.scrapeInterval
  {
  }

  /** Whether a stack gets a claim that cannot be parsed. */
  predicate BadRequest(m: MonitoringStack, parse: Quantities) {
    m.storage.strategy == "persistent" && parse(RequestOf(m.storage)).None?
  }

  /** The built stack does not depend on whether the webhook ran, exactly when the
      strategy is set and either the retention is set or the request is malformed
      either way. A blank request makes no difference. */
  lemma BuildStackCommutes(m: MonitoringStack, parse: Quantities)
    ensures BuildStack(Some(DefaultStack(m)), parse) == BuildStack(Some(m), parse) <==>
              m.storage.strategy != "" && (m.storage.retention != "" || BadRequest(m, parse))
  {
  }

  /** In particular for every persistent stack with a retention. */
  lemma PersistentBuildCommutes(m: MonitoringStack, parse: Quantities)
    requires m.storage.strategy == "persistent" && m.storage.retention != ""
    ensures BuildStack(Some(DefaultStack(m)), parse) == BuildStack(Some(m), parse)
  {
  }

  /** After admission a build fails for exactly two reasons. */
  lemma DefaultedBuildFails(s: MetricStorageSpec, parse: Quantities)
    ensures var d := DefaultMetricStorage(s);
            Build(d, parse).Err? <==>
              || (s.custom == Some(EMPTY_CUSTOM_STACK) && s.monitoringStack.None?)
              || (!UsesCustom(s) && s.monitoringStack.Some? && BadRequest(DefaultStack(s.monitoringStack.value), parse))
  {
  }
}
