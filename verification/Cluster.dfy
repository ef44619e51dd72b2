/** The API server, as far as one Autoscaling or Ceilometer resource of a
    namespace is concerned: the resource itself, the foreign objects on which the
    operator puts its finalizer, and the workload with its CONFIG_HASH. */
module Cluster {
  import opened Conditions

  /** Metadata that governs deletion: our finalizer, anybody else's, the deletion mark. */
  datatype Meta = Meta(ours: bool, others: bool, deleting: bool)

  /** An object marked for deletion disappears together with its last finalizer. */
  function Settle(m: Meta): (r: Option<Meta>)
    ensures r.None? <==> m.deleting && !m.ours && !m.others
    ensures r.Some? ==> r.value == m
  {
    if m.deleting && !m.ours && !m.others then None else Some(m)
  }

  datatype Spec = Spec(secret: string, prometheusHost: string, prometheusPort: int)

  datatype Endpoint = Internal | Public

  /** The keys of the hash map in the status: the input hash and the job hash. */
  datatype HashKey = InputHash | DbSyncHash

  /** A nil hash map and an empty one are the same stored value (omitempty). */
  datatype Status = Status(
    conditions: Option<Conds>,
    hash: map<HashKey, string>,
    transportURLSecret: string,
    databaseHostname: string,
    prometheusHost: string,
    prometheusPort: int,
    readyCount: int,
    endpoints: map<Endpoint, string>)

  const EMPTY_STATUS := Status(None, map[], "", "", "", 0, 0, map[])

  datatype Resource = Resource(uid: nat, meta: Meta, spec: Spec, status: Status)

  datatype Dependent = Database | KeystoneService | KeystoneEndpoint

  datatype Store = Store(
    cr: Option<Resource>,
    deps: map<Dependent, Meta>,
    workload: Option<string>,
    nextUid: nat)

  /** What everybody but this controller may do, at any moment. Nobody else adds
      the controller's finalizer to anything or takes it off the resource. */
  datatype EnvAction =
    | UserCreate(spec: Spec)
    | UserDelete
    | UserEdit(spec: Spec)
    | OtherFinalizer(held: bool)
    | Foreign(dep: Dependent, meta: Option<Meta>)
    | WorkloadRemoved

  function Act(s: Store, a: EnvAction): Store {
    match a
    case UserCreate(spec) =>
      if s.cr.Some? then s
      else s.(cr := Some(Resource(s.nextUid, Meta(false, false, false), spec, EMPTY_STATUS)),
              nextUid := s.nextUid + 1)
    case UserDelete =>
      if s.cr.None? then s else PutMeta(s, s.cr.value.meta.(deleting := true))
    case UserEdit(spec) =>
      if s.cr.None? then s else s.(cr := Some(s.cr.value.(spec := spec)))
    case OtherFinalizer(held) =>
      if s.cr.None? then s else PutMeta(s, s.cr.value.meta.(others := held))
    case Foreign(d, m) =>
      if m.None? then s.(deps := s.deps - {d})
      else if m.value.ours && !HoldsOurs(s, d) then s
      else s.(deps := s.deps[d := m.value])
    case WorkloadRemoved =>
      s.(workload := None)
  }

  function Acts(s: Store, actions: seq<EnvAction>): Store
    decreases |actions|
  {
    if actions == [] then s else Acts(Act(s, actions[0]), actions[1..])
  }

  predicate HoldsOurs(s: Store, d: Dependent) {
    d in s.deps && s.deps[d].ours
  }

  /** Writes the metadata of the stored resource, which may make it disappear. */
  function PutMeta(s: Store, m: Meta): Store
    requires s.cr.Some?
  {
    s.(cr := if Settle(m).None? then None else Some(s.cr.value.(meta := m)))
  }

  /** CreateOrPatch of a dependent: it exists afterwards and carries our finalizer. */
  function Acquire(s: Store, d: Dependent): (r: Store)
    ensures HoldsOurs(r, d) && r.cr == s.cr && r.workload == s.workload && r.nextUid == s.nextUid
    ensures forall e :: e != d ==> (HoldsOurs(r, e) <==> HoldsOurs(s, e))
  {
    s.(deps := s.deps[d := if d in s.deps then s.deps[d].(ours := true) else Meta(true, false, false)])
  }

  /** Removal of our finalizer from a dependent; a terminating one may go away. */
  function Release(s: Store, d: Dependent): (r: Store)
    ensures !HoldsOurs(r, d) && r.cr == s.cr && r.workload == s.workload && r.nextUid == s.nextUid
    ensures forall e :: e != d ==> (HoldsOurs(r, e) <==> HoldsOurs(s, e))
  {
    if !HoldsOurs(s, d) then s
    else
      var m := s.deps[d].(ours := false);
      if Settle(m).None? then s.(deps := s.deps - {d}) else s.(deps := s.deps[d := m])
  }

  /** The input hash that the stored status of the resource records. */
  predicate Recorded(s: Store, h: string) {
    s.cr.Some? && Lookup(s.cr.value.status.hash, InputHash) == h
  }

  /** A Go map read: the zero value for a missing key. */
  function Lookup<K>(m: map<K, string>, key: K): string {
    if key in m then m[key] else ""
  }

  /** What interference cannot do to the resource that a pass is working on. */
  lemma {:induction false} ActsKeep(s: Store, actions: seq<EnvAction>)
    ensures Acts(s, actions).nextUid >= s.nextUid
    ensures forall d :: HoldsOurs(Acts(s, actions), d) ==> HoldsOurs(s, d)
    ensures s.cr.Some? && s.cr.value.meta.ours ==>
              var r := Acts(s, actions);
              r.cr.Some? && r.cr.value.uid == s.cr.value.uid && r.cr.value.meta.ours
    ensures var r := Acts(s, actions);
            r.cr.Some? ==>
              || (s.cr.Some? && r.cr.value.uid == s.cr.value.uid && r.cr.value.status == s.cr.value.status)
              || (r.cr.value.uid >= s.nextUid && r.cr.value.status == EMPTY_STATUS)
    ensures Acts(s, actions).workload.Some? ==> Acts(s, actions).workload == s.workload
    decreases |actions|
  {
    if actions != [] {
      ActsKeep(Act(s, actions[0]), actions[1..]);
    }
  }
}
