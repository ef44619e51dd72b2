/** The functions that map a changed secret or memcached instance to the resources
    that have to be reconciled. */
module WatchMaps {
  import opened Conditions

  datatype OwnerReference = OwnerReference(kind: string, name: string)

  /** A watched object. */
  datatype Object = Object(namespace: string, name: string, owners: seq<OwnerReference>)

  /** A resource of the namespace, with the memcached instance that it uses. */
  datatype CustomResource = CustomResource(name: string, memcachedInstance: string)

  datatype Request = Request(namespace: string, name: string)

  const TRANSPORT_URL := "TransportURL"
  const TRANSPORT_SUFFIX := "-transport"

  /** The resources for which `p` holds, in list order. */
  function Select(crs: seq<CustomResource>, p: CustomResource -> bool): seq<CustomResource>
    decreases |crs|
  {
    if crs == [] then []
    else
      var rest := Select(crs[..|crs| - 1], p);
      if p(crs[|crs| - 1]) then rest + [crs[|crs| - 1]] else rest
  }

  function Requests(namespace: string, crs: seq<CustomResource>): (r: seq<Request>)
    ensures |r| == |crs| && forall i :: 0 <= i < |crs| ==> r[i] == Request(namespace, crs[i].name)
  {
    seq(|crs|, i requires 0 <= i < |crs| => Request(namespace, crs[i].name))
  }

  function BelongsTo(owner: OwnerReference): CustomResource -> bool {
    (cr: CustomResource) => owner.kind == TRANSPORT_URL && owner.name == cr.name + TRANSPORT_SUFFIX
  }

  function Uses(instance: string): CustomResource -> bool {
    (cr: CustomResource) => instance == cr.memcachedInstance
  }

  /** Go returns nil rather than an empty list; a failing List gives nil too. */
  function OrNil(r: seq<Request>): Option<seq<Request>> {
    if |r| > 0 then Some(r) else None
  }

  /** All the matches, owner by owner. */
  function TransportMatches(owners: seq<OwnerReference>, namespace: string, crs: seq<CustomResource>): seq<Request>
    decreases |owners|
  {
    if owners == [] then []
    else
      var last := owners[|owners| - 1];
      TransportMatches(owners[..|owners| - 1], namespace, crs) + Requests(namespace, Select(crs, BelongsTo(last)))
  }

  lemma SelectStep(crs: seq<CustomResource>, p: CustomResource -> bool, i: nat)
    requires i < |crs|
    ensures Select(crs[..i + 1], p) == Select(crs[..i], p) + if p(crs[i]) then [crs[i]] else []
  {
    assert crs[..i + 1][..i] == crs[..i];
  }

  lemma RequestsSnoc(namespace: string, crs: seq<CustomResource>, cr: CustomResource)
    ensures Requests(namespace, crs + [cr]) == Requests(namespace, crs) + [Request(namespace, cr.name)]
  {
  }

  /** transportURLSecretFn; `listed` is None when the List call fails. */
  method TransportURLSecretFn(o: Object, listed: Option<seq<CustomResource>>) returns (result: Option<seq<Request>>)
    ensures result.None? <==> listed.None? || TransportMatches(o.owners, o.namespace, listed.value) == []
    ensures result.Some? ==> result.value == TransportMatches(o.owners, o.namespace, listed.value)
  {
    if listed.None? { return None; }
    var crs := listed.value;
    var found: seq<Request> := [];
    for i := 0 to |o.owners|
      invariant found == TransportMatches(o.owners[..i], o.namespace, crs)
    {
      var owner := o.owners[i];
      ghost var before := found;
      assert o.owners[..i + 1][..i] == o.owners[..i];
      if owner.kind == TRANSPORT_URL {
        for j := 0 to |crs|
          invariant found == before + Requests(o.namespace, Select(crs[..j], BelongsTo(owner)))
        {
          SelectStep(crs, BelongsTo(owner), j);
          RequestsSnoc(o.namespace, Select(crs[..j], BelongsTo(owner)), crs[j]);
          if owner.name == crs[j].name + TRANSPORT_SUFFIX {
            found := found + [Request(o.namespace, crs[j].name)];
          }
        }
        assert crs[..|crs|] == crs;
      } else {
        SelectNothing(crs, BelongsTo(owner));
      }
    }
    assert o.owners[..|o.owners|] == o.owners;
    result := OrNil(found);
  }

  /** memcachedFn. */
  method MemcachedFn(o: Object, listed: Option<seq<CustomResource>>) returns (result: Option<seq<Request>>)
    ensures result.None? <==> listed.None? || Select(listed.value, Uses(o.name)) == []
    ensures result.Some? ==> result.value == Requests(o.namespace, Select(listed.value, Uses(o.name)))
  {
    if listed.None? { return None; }
    var crs := listed.value;
    var found: seq<Request> := [];
    for j := 0 to |crs|
      invariant found == Requests(o.namespace, Select(crs[..j], Uses(o.name)))
    {
      SelectStep(crs, Uses(o.name), j);
      RequestsSnoc(o.namespace, Select(crs[..j], Uses(o.name)), crs[j]);
      if o.name == crs[j].memcachedInstance {
        found := found + [Request(o.namespace, crs[j].name)];
      }
    }
    assert crs[..|crs|] == crs;
    result := OrNil(found);
  }

  // ---------------------------------------------------------------- sound and complete

  lemma {:induction false} SelectNothing(crs: seq<CustomResource>, p: CustomResource -> bool)
    requires forall cr :: !p(cr)
    ensures Select(crs, p) == []
    decreases |crs|
  {
    if crs != [] { SelectNothing(crs[..|crs| - 1], p); }
  }

  lemma {:induction false} SelectExactly(crs: seq<CustomResource>, p: CustomResource -> bool, cr: CustomResource)
    ensures cr in Select(crs, p) <==> cr in crs && p(cr)
    decreases |crs|
  {
    if crs != [] {
      SelectExactly(crs[..|crs| - 1], p, cr);
      assert crs == crs[..|crs| - 1] + [crs[|crs| - 1]];
    }
  }

  lemma RequestsExactly(namespace: string, crs: seq<CustomResource>, q: Request)
    ensures q in Requests(namespace, crs) <==> q.namespace == namespace && exists cr :: cr in crs && cr.name == q.name
  {
  }

  /** A resource is requested exactly when it is in the namespace and its transport
      is an owner of the secret. */
  ghost predicate Wanted(owners: seq<OwnerReference>, crs: seq<CustomResource>, name: string) {
    && (exists cr :: cr in crs && cr.name == name)
    && OwnerReference("TransportURL", name + "-transport") in owners
  }

  lemma {:induction false} TransportExactly(
    owners: seq<OwnerReference>, namespace: string, crs: seq<CustomResource>, q: Request)
    ensures q in TransportMatches(owners, namespace, crs) <==> q.namespace == namespace && Wanted(owners, crs, q.name)
    decreases |owners|
  {
    if owners != [] {
      var init, last := owners[..|owners| - 1], owners[|owners| - 1];
      assert owners == init + [last];
      TransportExactly(init, namespace, crs, q);
      OwnerExactly(last, namespace, crs, q);
    }
  }

  lemma OwnerExactly(owner: OwnerReference, namespace: string, crs: seq<CustomResource>, q: Request)
    ensures q in Requests(namespace, Select(crs, BelongsTo(owner))) <==>
              && q.namespace == namespace && (exists cr :: cr in crs && cr.name == q.name)
              && owner == OwnerReference(TRANSPORT_URL, q.name + TRANSPORT_SUFFIX)
  {
    var chosen := Select(crs, BelongsTo(owner));
    RequestsExactly(namespace, chosen, q);
    forall cr
      ensures cr in chosen <==> cr in crs && BelongsTo(owner)(cr)
    {
      SelectExactly(crs, BelongsTo(owner), cr);
    }
  }

  /** The memcached map returns exactly the users of the instance, in list order. */
  lemma MemcachedExactly(o: Object, crs: seq<CustomResource>, cr: CustomResource)
    ensures cr in Select(crs, Uses(o.name)) <==> cr in crs && cr.memcachedInstance == o.name
  {
  }

  /** Selecting keeps the order of the list. */
  lemma {:induction false} SelectKeepsOrder(crs: seq<CustomResource>, p: CustomResource -> bool) returns (at: seq<nat>)
    ensures |at| == |Select(crs, p)|
    ensures forall i :: 0 <= i < |at| ==> at[i] < |crs| && Select(crs, p)[i] == crs[at[i]]
    ensures forall i, j :: 0 <= i < j < |at| ==> at[i] < at[j]
    decreases |crs|
  {
    at := [];
    if crs != [] {
      at := SelectKeepsOrder(crs[..|crs| - 1], p);
      if p(crs[|crs| - 1]) { at := at + [|crs| - 1]; }
    }
  }

  // ---------------------------------------------------------------- the operator's own transports

  /** The owner of the transport secret of a service. */
  function OwnerOf(service: string): seq<OwnerReference> {
    [OwnerReference(TRANSPORT_URL, service + TRANSPORT_SUFFIX)]
  }

  /** A secret owned by the TransportURL that a controller itself creates, which is
      named after its service, maps exactly to the resource named like the service. */
  lemma OwnTransport(service: string, namespace: string, crs: seq<CustomResource>, q: Request)
    ensures q in TransportMatches(OwnerOf(service), namespace, crs) <==>
              q == Request(namespace, service) && exists cr :: cr in crs && cr.name == service
  {
    TransportExactly(OwnerOf(service), namespace, crs, q);
    if q.name + TRANSPORT_SUFFIX == service + TRANSPORT_SUFFIX {
      assert (q.name + TRANSPORT_SUFFIX)[..|q.name|] == q.name;
      assert (service + TRANSPORT_SUFFIX)[..|service|] == service;
    }
  }

  const AODH := "aodh"
  const CEILOMETER := "ceilometer"
  const AUTOSCALING_CHILD := "autoscaling"

  /** The Telemetry controller names its Ceilometer like the service, so that the
      watch works whenever that child is there; it names its Autoscaling "autoscaling",
      whereas the service is "aodh", so that a change of the transport secret never
      reaches it, whatever other resources the namespace has. */
  lemma ChildrenAndTheirTransports(namespace: string, crs: seq<CustomResource>)
    ensures Request(namespace, CEILOMETER) in TransportMatches(OwnerOf(CEILOMETER), namespace, crs) <==>
              exists cr :: cr in crs && cr.name == CEILOMETER
    ensures Request(namespace, AUTOSCALING_CHILD) !in TransportMatches(OwnerOf(AODH), namespace, crs)
  {
    OwnTransport(CEILOMETER, namespace, crs, Request(namespace, CEILOMETER));
    assert |AODH| == 4 && |AUTOSCALING_CHILD| == 11;
    OwnTransport(AODH, namespace, crs, Request(namespace, AUTOSCALING_CHILD));
  }
}
