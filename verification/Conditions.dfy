/** Status conditions of the operator's custom resources.

    The condition list of lib-common keeps at most one entry per type: `Set`,
    `MarkTrue` and `MarkFalse` replace or insert by type and `Remove` deletes by
    type, so the list is a map from type to status.
 */
module Conditions {

  datatype Option<+T> = None | Some(value: T)

  datatype CondStatus = True | False | Unknown

  datatype Cond =
    | Ready
    | InputReady | ServiceConfigReady | RabbitMqTransportURLReady
    | MemcachedReady | HeatReady
    | DBReady | DBSyncReady | DeploymentReady | ExposeServiceReady
    | KeystoneServiceReady | KeystoneEndpointReady
    | ServiceAccountReady | RoleReady | RoleBindingReady
    | CeilometerReady | AutoscalingReady | MetricStorageReady
    | MonitoringStackReady | ServiceMonitorReady | ScrapeConfigReady | NodeSetReady

  type Conds = map<Cond, CondStatus>

  /** Every condition other than Ready is True. */
  predicate AllSubTrue(c: Conds) {
    forall t :: t in c && t != Ready ==> c[t] == True
  }

  predicate SomeSubFalse(c: Conds) {
    exists t :: t in c && t != Ready && c[t] == False
  }

  /** The deferred update of Ready: True when all the others are, otherwise the
      mirror of the worst of them, which is never True. */
  function WithReady(c: Conds): (r: Conds)
    ensures Ready in r && (r[Ready] == True <==> AllSubTrue(c))
    ensures r.Keys == c.Keys + {Ready}
    ensures forall t :: t in c && t != Ready ==> r[t] == c[t]
  {
    c[Ready := if AllSubTrue(c) then True else if SomeSubFalse(c) then False else Unknown]
  }

  /** The list created by CreateList/Init: every listed type Unknown. */
  function AllUnknown(types: set<Cond>): (c: Conds)
    ensures c.Keys == types
    ensures forall t :: t in types ==> c[t] == Unknown
  {
    map t | t in types :: Unknown
  }

  predicate IsTrue(c: Option<Conds>, t: Cond) {
    c.Some? && t in c.value && c.value[t] == True
  }
}
