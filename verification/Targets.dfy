/** The scrape targets of MetricStorage: nested loops over node sets and their
    nodes, with an address-resolution cascade and an early return. */
module Targets {
  import opened Conditions
  import Domain

  datatype NodeSection = NodeSection(ansibleHost: string, hostName: string)

  datatype NodeSet = NodeSet(services: seq<string>, nodes: map<string, NodeSection>)

  datatype Reservation = Reservation(network: string, address: string)

  /** The answers of the API server during one computation. A None is an error; for
      the IP sets of a namespace only their number matters. */
  datatype Answers = Answers(
    ipSetCount: Option<nat>,
    nodeSets: Option<seq<NodeSet>>,
    ipSet: string -> Option<seq<Reservation>>,
    telemetryNetworks: Option<seq<string>>,
    isIP: string -> bool)

  datatype Node = Node(name: string, section: NodeSection)

  // ---------------------------------------------------------------- addresses

  /** getAddressFromAnsibleHost. */
  function FromAnsibleHost(a: Answers, item: NodeSection): string {
    if a.isIP(item.ansibleHost) || Domain.IsDomain(item.ansibleHost) then item.ansibleHost
    else if Domain.IsDomain(item.hostName) then item.hostName
    else ""
  }

  /** The first reservation on a network of the telemetry service. */
  function FirstReserved(rs: seq<Reservation>, networks: seq<string>): (r: Option<nat>)
    ensures r.None? <==> forall i :: 0 <= i < |rs| ==> rs[i].network !in networks
    ensures r.Some? ==> r.value < |rs| && rs[r.value].network in networks
                        && forall i :: 0 <= i < r.value ==> rs[i].network !in networks
    decreases |rs|
  {
    if rs == [] then None
    else if rs[0].network in networks then Some(0)
    else
      assert forall i :: 0 < i < |rs| ==> rs[i] == rs[1..][i - 1];
      match FirstReserved(rs[1..], networks)
      case None => None
      case Some(i) => Some(i + 1)
  }

  function FromIPSet(a: Answers, node: Node): string {
    match a.ipSet(node.name)
    case None => if Domain.IsDomain(node.section.hostName) then node.section.hostName else ""
    case Some(rs) =>
      var i := if a.telemetryNetworks.Some? then FirstReserved(rs, a.telemetryNetworks.value) else None;
      if i.Some? then rs[i.value].address else FromAnsibleHost(a, node.section)
  }

  /** The address of a node, or the empty string. */
  function Resolve(a: Answers, node: Node): string {
    if a.ipSetCount.Some? && a.ipSetCount.value > 0 then FromIPSet(a, node)
    else if node.section.ansibleHost != "" then FromAnsibleHost(a, node.section)
    else ""
  }

  /** Every address is an IP address, a valid domain name, or was reserved for the
      node on a network of the telemetry service. */
  lemma AddressesAreTrusted(a: Answers, node: Node)
    requires Resolve(a, node) != ""
    ensures var address := Resolve(a, node);
            || a.isIP(address)
            || Domain.Matches(Domain.DOMAIN, address)
            || (a.ipSet(node.name).Some? && a.telemetryNetworks.Some?
                && exists i :: 0 <= i < |a.ipSet(node.name).value| && a.ipSet(node.name).value[i].address == address
                               && a.ipSet(node.name).value[i].network in a.telemetryNetworks.value)
  {
    Domain.RegexIsDomain(Resolve(a, node));
    hide Domain.Matches, Domain.IsDomain;
  }

  /** `address` is the ansible host if that is an IP address or a domain name, else the
      host name if that is one, else blank. */
  ghost predicate AnsibleOrHost(a: Answers, item: NodeSection, address: string) {
    address ==
      if a.isIP(item.ansibleHost) || Domain.Matches(Domain.DOMAIN, item.ansibleHost) then item.ansibleHost
      else if Domain.Matches(Domain.DOMAIN, item.hostName) then item.hostName
      else ""
  }

  /** The reservation of the node at index i is its first one on a telemetry network. */
  predicate FirstOnTelemetry(a: Answers, node: Node, i: nat) {
    && a.ipSet(node.name).Some? && a.telemetryNetworks.Some? && i < |a.ipSet(node.name).value|
    && a.ipSet(node.name).value[i].network in a.telemetryNetworks.value
    && forall j :: 0 <= j < i ==> a.ipSet(node.name).value[j].network !in a.telemetryNetworks.value
  }

  /** Where an address comes from, for every node. Where the namespace has IP sets: from
      the first reservation of the node on a telemetry network, if there is one; else
      from its ansible host or host name if it has an IP set; else from its host name.
      Where it has none: from the ansible host, if that is set, or the host name. */
  lemma AddressExactly(a: Answers, node: Node)
    ensures var address := Resolve(a, node);
            if a.ipSetCount.Some? && a.ipSetCount.value > 0 then
              && (forall i: nat :: FirstOnTelemetry(a, node, i) ==> address == a.ipSet(node.name).value[i].address)
              && ((forall i: nat :: !FirstOnTelemetry(a, node, i)) && a.ipSet(node.name).Some? ==>
                    AnsibleOrHost(a, node.section, address))
              && (a.ipSet(node.name).None? ==>
                    address == if Domain.Matches(Domain.DOMAIN, node.section.hostName)
                               then node.section.hostName else "")
            else if node.section.ansibleHost != "" then AnsibleOrHost(a, node.section, address)
            else address == ""
  {
    Domain.RegexIsDomain(node.section.ansibleHost);
    Domain.RegexIsDomain(node.section.hostName);
    hide Domain.Matches, Domain.IsDomain;
    if a.ipSet(node.name).Some? && a.telemetryNetworks.Some? {
      var rs := a.ipSet(node.name).value;
      var first := FirstReserved(rs, a.telemetryNetworks.value);
      forall i: nat | FirstOnTelemetry(a, node, i)
        ensures first == Some(i)
      {
        assert first.Some?;
        assert rs[first.value].network in a.telemetryNetworks.value && rs[i].network in a.telemetryNetworks.value;
      }
      if first.Some? { assert FirstOnTelemetry(a, node, first.value); }
    }
  }

  /** getAddressFromIPSet, with its search loops. */
  method GetAddressFromIPSet(a: Answers, node: Node) returns (address: string)
    ensures address == FromIPSet(a, node)
  {
    var ipSet := a.ipSet(node.name);
    if ipSet.None? {
      var valid := Domain.IsValidDomain(node.section.hostName);
      Domain.RegexIsDomain(node.section.hostName);
      return if valid then node.section.hostName else "";
    }
    var rs := ipSet.value;
    if |rs| > 0 && a.telemetryNetworks.Some? {
      var networks := a.telemetryNetworks.value;
      for i := 0 to |rs|
        invariant forall k :: 0 <= k < i ==> rs[k].network !in networks
      {
        for j := 0 to |networks|
          invariant rs[i].network !in networks[..j]
        {
          if rs[i].network == networks[j] {
            assert FirstReserved(rs, networks) == Some(i);
            return rs[i].address;
          }
        }
        assert networks[..|networks|] == networks;
      }
      assert FirstReserved(rs, networks).None?;
    }
    address := FromAnsibleHost(a, node.section);
  }

  // ---------------------------------------------------------------- the nodes, in order

  function Map<X, Y>(f: X -> Y, s: seq<X>): (r: seq<Y>)
    ensures |r| == |s| && forall i :: 0 <= i < |s| ==> r[i] == f(s[i])
    decreases |s|
  {
    if s == [] then [] else [f(s[0])] + Map(f, s[1..])
  }

  function NodeOf(ns: NodeSet): string -> Node {
    name => Node(name, if name in ns.nodes then ns.nodes[name] else NodeSection("", ""))
  }

  const TELEMETRY := "telemetry"

  /** The nodes of a node set on which telemetry is deployed, in iteration order. */
  function NodesOf(ns: NodeSet, order: seq<string>): seq<Node> {
    if TELEMETRY in ns.services then Map(NodeOf(ns), order) else []
  }

  /** The nodes of the first n node sets. */
  function Flat(sets: seq<NodeSet>, orders: seq<seq<string>>, n: nat): seq<Node>
    requires n <= |sets| == |orders|
    decreases n
  {
    if n == 0 then [] else Flat(sets, orders, n - 1) + NodesOf(sets[n - 1], orders[n - 1])
  }

  /** A possible order in which the node map of a node set is visited. */
  ghost predicate Enumerates(order: seq<string>, ns: NodeSet) {
    && (forall name :: name in order <==> name in ns.nodes)
    && (forall i, j :: 0 <= i < j < |order| ==> order[i] != order[j])
  }

  ghost predicate AllEnumerate(orders: seq<seq<string>>, sets: seq<NodeSet>) {
    |orders| == |sets| && forall i :: 0 <= i < |sets| ==> Enumerates(orders[i], sets[i])
  }

  lemma FlatStep(sets: seq<NodeSet>, orders: seq<seq<string>>, n: nat)
    requires 0 < n <= |sets| == |orders|
    ensures Flat(sets, orders, n - 1) <= Flat(sets, orders, n)
  {
    hide NodesOf;
  }

  lemma Transitive(a: seq<Node>, b: seq<Node>, c: seq<Node>)
    requires a <= b <= c
    ensures a <= c
  {
  }

  lemma {:induction false} FlatGrows(sets: seq<NodeSet>, orders: seq<seq<string>>, n: nat, m: nat)
    requires n <= m <= |sets| == |orders|
    ensures Flat(sets, orders, n) <= Flat(sets, orders, m)
    decreases m
  {
    hide Flat;
    if n < m {
      FlatGrows(sets, orders, n, m - 1);
      FlatStep(sets, orders, m);
      Transitive(Flat(sets, orders, n), Flat(sets, orders, m - 1), Flat(sets, orders, m));
    }
  }

  // ---------------------------------------------------------------- the targets

  const NODE_EXPORTER_PORT := ":9100"

  function Target(a: Answers): Node -> string {
    node => Resolve(a, node) + NODE_EXPORTER_PORT
  }

  /** The targets of a stretch of nodes that all resolve. */
  predicate Covers(a: Answers, nodes: seq<Node>, targets: seq<string>) {
    && |targets| == |nodes|
    && forall i :: 0 <= i < |nodes| ==> Resolve(a, nodes[i]) != "" && targets[i] == Target(a)(nodes[i])
  }

  /** The targets of the longest prefix of the nodes that resolves. */
  predicate LongestPrefix(a: Answers, nodes: seq<Node>, targets: seq<string>) {
    && |targets| <= |nodes|
    && Covers(a, nodes[..|targets|], targets)
    && (|targets| < |nodes| ==> Resolve(a, nodes[|targets|]) == "")
  }

  lemma StopsHere(a: Answers, all: seq<Node>, done: seq<Node>, node: Node, targets: seq<string>)
    requires Covers(a, done, targets) && Resolve(a, node) == "" && done + [node] <= all
    ensures LongestPrefix(a, all, targets)
  {
  }

  /** getNodeExporterTargets, for every list of node sets and every order in which
      their node maps are visited. */
  method GetNodeExporterTargets(a: Answers, orders: seq<seq<string>>) returns (failed: bool, targets: seq<string>)
    requires a.nodeSets.Some? ==> AllEnumerate(orders, a.nodeSets.value)
    ensures failed <==> a.ipSetCount.None? || a.nodeSets.None?
    ensures failed ==> targets == []
    ensures !failed ==> LongestPrefix(a, Flat(a.nodeSets.value, orders, |a.nodeSets.value|), targets)
  {
    hide Resolve, Covers, LongestPrefix, Enumerates;
    targets := [];
    if a.ipSetCount.None? { return true, []; }
    if a.nodeSets.None? { return true, []; }
    failed := false;
    var sets := a.nodeSets.value;
    ghost var all := Flat(sets, orders, |sets|);
    NothingYet(a);
    for i := 0 to |sets|
      invariant Covers(a, Flat(sets, orders, i), targets)
    {
      FlatGrows(sets, orders, i + 1, |sets|);
      var deployed := HasTelemetry(sets[i].services);
      if !deployed {
        assert Flat(sets, orders, i + 1) == Flat(sets, orders, i) + [] == Flat(sets, orders, i);
        continue;
      }
      ghost var base := Flat(sets, orders, i);
      var stop;
      stop, targets := AddNodes(a, sets[i], orders[i], targets, base, all);
      if stop { return; }
    }
    AllDone(a, all, targets);
  }

  /** The inner loop, over the nodes of one node set; `base` are the nodes before it
      and `all` are all the nodes there are. */
  method AddNodes(a: Answers, ns: NodeSet, order: seq<string>, before: seq<string>,
                  ghost base: seq<Node>, ghost all: seq<Node>)
    returns (stop: bool, targets: seq<string>)
    requires a.ipSetCount.Some? && Covers(a, base, before) && base + Map(NodeOf(ns), order) <= all
    ensures if stop then LongestPrefix(a, all, targets) else Covers(a, base + Map(NodeOf(ns), order), targets)
  {
    hide Resolve, Covers, LongestPrefix, Map, NodeOf;
    ghost var own := Map(NodeOf(ns), order);
    targets := before;
    assert base + own[..0] == base;
    for j := 0 to |order|
      invariant Covers(a, base + own[..j], targets)
    {
      var node := NodeOf(ns)(order[j]);
      OneMore(base, own, all, j);
      var address := GetAddress(a, node);
      if address == "" {
        StopsHere(a, all, base + own[..j], node, targets);
        return true, targets;
      }
      GoesOn(a, base + own[..j], node, targets);
      targets := targets + [address + NODE_EXPORTER_PORT];
    }
    assert own[..|order|] == own;
    stop := false;
  }

  /** The choice between the two sources of an address. */
  method GetAddress(a: Answers, node: Node) returns (address: string)
    requires a.ipSetCount.Some?
    ensures address == Resolve(a, node)
  {
    if a.ipSetCount.value > 0 {
      address := GetAddressFromIPSet(a, node);
    } else if |node.section.ansibleHost| > 0 {
      address := FromAnsibleHost(a, node.section);
    } else {
      address := "";
    }
  }

  lemma OneMore(base: seq<Node>, own: seq<Node>, all: seq<Node>, j: nat)
    requires j < |own| && base + own <= all
    ensures base + own[..j + 1] == base + own[..j] + [own[j]] <= all
  {
  }

  lemma NothingYet(a: Answers)
    ensures Covers(a, [], [])
  {
  }

  lemma GoesOn(a: Answers, done: seq<Node>, node: Node, targets: seq<string>)
    requires Covers(a, done, targets) && Resolve(a, node) != ""
    ensures Covers(a, done + [node], targets + [Resolve(a, node) + NODE_EXPORTER_PORT])
  {
  }

  lemma AllDone(a: Answers, all: seq<Node>, targets: seq<string>)
    requires Covers(a, all, targets)
    ensures LongestPrefix(a, all, targets)
  {
  }

  method HasTelemetry(services: seq<string>) returns (found: bool)
    ensures found <==> TELEMETRY in services
  {
    for i := 0 to |services|
      invariant TELEMETRY !in services[..i]
    {
      if services[i] == TELEMETRY { return true; }
    }
    assert services[..|services|] == services;
    return false;
  }

  /** What the targets are: the address of each node, in order, with the port of the node
      exporter, up to the first node without one. */
  lemma TargetsAre(a: Answers, nodes: seq<Node>, t: seq<string>)
    ensures LongestPrefix(a, nodes, t) <==>
              && |t| <= |nodes|
              && (forall i :: 0 <= i < |t| ==> Resolve(a, nodes[i]) != "" && t[i] == Resolve(a, nodes[i]) + ":9100")
              && (|t| < |nodes| ==> Resolve(a, nodes[|t|]) == "")
  {
    hide Resolve;
    if |t| <= |nodes| {
      assert forall i :: 0 <= i < |t| ==> nodes[..|t|][i] == nodes[i];
    }
  }

  /** The node belongs to the node set, which has the telemetry service. */
  predicate Exports(ns: NodeSet, node: Node) {
    "telemetry" in ns.services && node.name in ns.nodes && ns.nodes[node.name] == node.section
  }

  /** Which nodes there are: those of the node sets with the telemetry service, and no
      others. */
  lemma {:induction false} FlatExactly(sets: seq<NodeSet>, orders: seq<seq<string>>, n: nat, node: Node)
    requires n <= |sets| == |orders| && AllEnumerate(orders, sets)
    ensures node in Flat(sets, orders, n) <==>
              exists i :: 0 <= i < n && Exports(sets[i], node)
    decreases n
  {
    hide NodesOf, Enumerates, Exports;
    if n > 0 {
      hide Flat;
      FlatSnoc(sets, orders, n, node);
      FlatExactly(sets, orders, n - 1, node);
      assert Enumerates(orders[n - 1], sets[n - 1]);
      OwnNodes(sets[n - 1], orders[n - 1], node);
    }
  }

  lemma FlatSnoc(sets: seq<NodeSet>, orders: seq<seq<string>>, n: nat, node: Node)
    requires 0 < n <= |sets| == |orders|
    ensures node in Flat(sets, orders, n) <==>
              node in Flat(sets, orders, n - 1) || node in NodesOf(sets[n - 1], orders[n - 1])
  {
  }

  lemma OwnNodes(ns: NodeSet, order: seq<string>, node: Node)
    requires Enumerates(order, ns)
    ensures node in NodesOf(ns, order) <==> Exports(ns, node)
  {
    var all := Map(NodeOf(ns), order);
    if node.name in ns.nodes {
      var j :| 0 <= j < |order| && order[j] == node.name;
      assert all[j] == NodeOf(ns)(node.name);
    }
  }

  /** The specification has one answer, and it is complete exactly when every node
      with telemetry resolves. */
  lemma PrefixIsUnique(a: Answers, nodes: seq<Node>, t: seq<string>, u: seq<string>)
    requires LongestPrefix(a, nodes, t) && LongestPrefix(a, nodes, u)
    ensures t == u
    ensures |t| == |nodes| <==> forall i :: 0 <= i < |nodes| ==> Resolve(a, nodes[i]) != ""
  {
    hide Resolve;
    PrefixResolves(a, nodes, t);
    PrefixResolves(a, nodes, u);
  }

  lemma PrefixResolves(a: Answers, nodes: seq<Node>, t: seq<string>)
    requires LongestPrefix(a, nodes, t)
    ensures forall i :: 0 <= i < |t| ==> Resolve(a, nodes[i]) != "" && t[i] == Target(a)(nodes[i])
  {
    hide Resolve;
    forall i | 0 <= i < |t|
      ensures Resolve(a, nodes[i]) != "" && t[i] == Target(a)(nodes[i])
    {
      assert nodes[..|t|][i] == nodes[i];
    }
  }

  // ---------------------------------------------------------------- independence of the order

  lemma {:induction false} CountDistinct(s: seq<string>, x: string)
    requires forall i, j :: 0 <= i < j < |s| ==> s[i] != s[j]
    ensures multiset(s)[x] == if x in s then 1 else 0
    decreases |s|
  {
    if s != [] {
      assert s == [s[0]] + s[1..];
      assert forall i :: 0 <= i < |s| - 1 ==> s[1..][i] == s[i + 1];
      CountDistinct(s[1..], x);
    }
  }

  lemma SameNames(o: seq<string>, o': seq<string>, ns: NodeSet)
    requires Enumerates(o, ns) && Enumerates(o', ns)
    ensures multiset(o) == multiset(o')
  {
    forall x
      ensures multiset(o)[x] == multiset(o')[x]
    {
      CountDistinct(o, x);
      CountDistinct(o', x);
    }
  }

  lemma RemoveAt<X>(t: seq<X>, j: nat)
    requires j < |t|
    ensures multiset(t) == multiset(t[..j] + t[j + 1..]) + multiset{t[j]}
  {
    assert t == t[..j] + [t[j]] + t[j + 1..];
  }

  lemma MapRemoveAt<X, Y>(f: X -> Y, t: seq<X>, j: nat)
    requires j < |t|
    ensures multiset(Map(f, t)) == multiset(Map(f, t[..j] + t[j + 1..])) + multiset{f(t[j])}
  {
    hide Map;
    var r, u := Map(f, t), Map(f, t[..j] + t[j + 1..]);
    var v := r[..j] + r[j + 1..];
    assert |u| == |v| && forall i :: 0 <= i < |u| ==> u[i] == v[i];
    assert u == v;
    RemoveAt(r, j);
  }

  lemma {:induction false} MapMultiset<X(!new), Y>(f: X -> Y, s: seq<X>, t: seq<X>)
    requires multiset(s) == multiset(t)
    ensures multiset(Map(f, s)) == multiset(Map(f, t))
    decreases |s|
  {
    if s == [] {
      assert |multiset(t)| == 0;
    } else {
      hide Map;
      assert s[0] in multiset(t);
      var j :| 0 <= j < |t| && t[j] == s[0];
      var t' := t[..j] + t[j + 1..];
      RemoveAt(t, j);
      RemoveAt(s, 0);
      assert s[..0] + s[1..] == s[1..];
      Cancel(multiset(s[1..]), multiset(t'), s[0]);
      MapMultiset(f, s[1..], t');
      MapRemoveAt(f, t, j);
      MapRemoveAt(f, s, 0);
    }
  }

  lemma Cancel<X>(m: multiset<X>, n: multiset<X>, x: X)
    requires m + multiset{x} == n + multiset{x}
    ensures m == n
  {
    assert m == m + multiset{x} - multiset{x};
    assert n == n + multiset{x} - multiset{x};
  }

  lemma NodesMultiset(ns: NodeSet, o: seq<string>, o': seq<string>)
    requires Enumerates(o, ns) && Enumerates(o', ns)
    ensures multiset(NodesOf(ns, o)) == multiset(NodesOf(ns, o'))
  {
    SameNames(o, o', ns);
    MapMultiset(NodeOf(ns), o, o');
  }

  lemma {:induction false} FlatMultiset(sets: seq<NodeSet>, o: seq<seq<string>>, o': seq<seq<string>>, n: nat)
    requires n <= |sets| && AllEnumerate(o, sets) && AllEnumerate(o', sets)
    ensures multiset(Flat(sets, o, n)) == multiset(Flat(sets, o', n))
    decreases n
  {
    if n > 0 {
      hide Enumerates, NodesOf;
      FlatMultiset(sets, o, o', n - 1);
      NodesMultiset(sets[n - 1], o[n - 1], o'[n - 1]);
    }
  }

  lemma AllResolve(a: Answers, s: seq<Node>, t: seq<Node>)
    requires multiset(s) == multiset(t) && forall i :: 0 <= i < |s| ==> Resolve(a, s[i]) != ""
    ensures forall i :: 0 <= i < |t| ==> Resolve(a, t[i]) != ""
  {
    hide Resolve;
    forall i | 0 <= i < |t|
      ensures Resolve(a, t[i]) != ""
    {
      assert t[i] in multiset(t);
      assert t[i] in s;
    }
  }

  /** When every node resolves, the targets are the same up to order, whichever way
      the node maps are visited. */
  lemma AnyOrderWhenComplete(
    a: Answers, sets: seq<NodeSet>, o: seq<seq<string>>, o': seq<seq<string>>, t: seq<string>, t': seq<string>)
    requires AllEnumerate(o, sets) && AllEnumerate(o', sets)
    ensures var s, s' := Flat(sets, o, |sets|), Flat(sets, o', |sets|);
            LongestPrefix(a, s, t) && LongestPrefix(a, s', t') && |t| == |s| ==>
              |t'| == |s'| && multiset(t) == multiset(t')
  {
    hide Resolve, Flat, Enumerates, LongestPrefix;
    var s, s' := Flat(sets, o, |sets|), Flat(sets, o', |sets|);
    if LongestPrefix(a, s, t) && LongestPrefix(a, s', t') && |t| == |s| {
      FlatMultiset(sets, o, o', |sets|);
      SameTargets(a, s, s', t, t');
    }
  }

  lemma SameTargets(a: Answers, s: seq<Node>, s': seq<Node>, t: seq<string>, t': seq<string>)
    requires LongestPrefix(a, s, t) && LongestPrefix(a, s', t') && |t| == |s| && multiset(s) == multiset(s')
    ensures |t'| == |s'| && multiset(t) == multiset(t')
  {
    hide Resolve;
    PrefixIsUnique(a, s, t, t);
    PrefixIsUnique(a, s', t', t');
    AllResolve(a, s, s');
    assert s[..|t|] == s && s'[..|t'|] == s';
    assert t == Map(Target(a), s) && t' == Map(Target(a), s');
    MapMultiset(Target(a), s, s');
  }

  // ---------------------------------------------------------------- exactly when the order matters

  /** A node set with telemetry that holds a node that does not resolve. */
  predicate HasBad(a: Answers, ns: NodeSet) {
    TELEMETRY in ns.services && exists name :: name in ns.nodes && Resolve(a, NodeOf(ns)(name)) == ""
  }

  /** The node set at which the computation stops, in every order. */
  predicate FirstBad(a: Answers, sets: seq<NodeSet>, i: nat) {
    i < |sets| && HasBad(a, sets[i]) && forall j :: 0 <= j < i ==> !HasBad(a, sets[j])
  }

  predicate NoneResolves(a: Answers, ns: NodeSet) {
    forall name :: name in ns.nodes ==> Resolve(a, NodeOf(ns)(name)) == ""
  }

  /** Whichever way the node maps are visited, the targets are the same up to order. */
  ghost predicate OrderFree(a: Answers, sets: seq<NodeSet>) {
    forall o, o', t, t' ::
      AllEnumerate(o, sets) && AllEnumerate(o', sets)
      && LongestPrefix(a, Flat(sets, o, |sets|), t) && LongestPrefix(a, Flat(sets, o', |sets|), t')
      ==> multiset(t) == multiset(t')
  }

  lemma NodesResolve(a: Answers, ns: NodeSet, order: seq<string>, i: nat)
    requires Enumerates(order, ns) && !HasBad(a, ns) && i < |NodesOf(ns, order)|
    ensures Resolve(a, NodesOf(ns, order)[i]) != ""
  {
    hide Resolve;
    assert order[i] in order;
  }

  /** All the nodes in front of the stopping node set resolve. */
  lemma {:induction false} FlatResolves(a: Answers, sets: seq<NodeSet>, o: seq<seq<string>>, n: nat, i: nat)
    requires AllEnumerate(o, sets) && n <= |sets| && i < |Flat(sets, o, n)|
    requires forall j :: 0 <= j < n ==> !HasBad(a, sets[j])
    ensures Resolve(a, Flat(sets, o, n)[i]) != ""
    decreases n
  {
    hide Resolve, NodesOf, HasBad, Enumerates;
    var before := Flat(sets, o, n - 1);
    if i < |before| {
      FlatResolves(a, sets, o, n - 1, i);
    } else {
      NodesResolve(a, sets[n - 1], o[n - 1], i - |before|);
    }
  }

  lemma FlatCovered(a: Answers, sets: seq<NodeSet>, o: seq<seq<string>>, n: nat)
    requires AllEnumerate(o, sets) && n <= |sets| && forall j :: 0 <= j < n ==> !HasBad(a, sets[j])
    ensures Covers(a, Flat(sets, o, n), Map(Target(a), Flat(sets, o, n)))
  {
    hide Resolve, Flat, HasBad, Enumerates;
    var flat := Flat(sets, o, n);
    forall i | 0 <= i < |flat|
      ensures Resolve(a, flat[i]) != ""
    {
      FlatResolves(a, sets, o, n, i);
    }
  }

  /** An order that visits an unresolvable node first stops right in front of it. */
  lemma StopsAtSet(a: Answers, sets: seq<NodeSet>, o: seq<seq<string>>, i: nat, t: seq<string>)
    requires AllEnumerate(o, sets) && FirstBad(a, sets, i) && o[i] != []
    requires Resolve(a, NodeOf(sets[i])(o[i][0])) == ""
    requires LongestPrefix(a, Flat(sets, o, |sets|), t)
    ensures t == Map(Target(a), Flat(sets, o, i))
  {
    assert TELEMETRY in sets[i].services;
    hide Resolve, Flat, HasBad, Enumerates, Covers, LongestPrefix;
    var flat, node := Flat(sets, o, i), NodeOf(sets[i])(o[i][0]);
    FlatCovered(a, sets, o, i);
    NextNode(sets, o, i);
    StopsHere(a, Flat(sets, o, |sets|), flat, node, Map(Target(a), flat));
    PrefixIsUnique(a, Flat(sets, o, |sets|), t, Map(Target(a), flat));
  }

  /** The nodes of a node set with telemetry come right after those in front of it. */
  lemma NextNode(sets: seq<NodeSet>, o: seq<seq<string>>, i: nat)
    requires i < |sets| == |o| && TELEMETRY in sets[i].services && o[i] != []
    ensures Flat(sets, o, i) + [NodeOf(sets[i])(o[i][0])] <= Flat(sets, o, |sets|)
  {
    FlatGrows(sets, o, i + 1, |sets|);
    var before, own := Flat(sets, o, i), Map(NodeOf(sets[i]), o[i]);
    var next := Flat(sets, o, i + 1);
    assert next == before + own;
    hide Flat, Map, NodeOf;
    OneMore(before, own, next, 0);
    assert before + own[..0] == before;
    Transitive(before + [own[0]], next, Flat(sets, o, |sets|));
  }

  /** When the stopping node set holds no resolvable node, every order stops there. */
  lemma UniformStop(a: Answers, sets: seq<NodeSet>, o: seq<seq<string>>, i: nat, t: seq<string>)
    requires AllEnumerate(o, sets) && FirstBad(a, sets, i) && NoneResolves(a, sets[i])
    ensures LongestPrefix(a, Flat(sets, o, |sets|), t) ==> t == Map(Target(a), Flat(sets, o, i))
  {
    hide Resolve, Flat, LongestPrefix;
    var name :| name in sets[i].nodes && Resolve(a, NodeOf(sets[i])(name)) == "";
    assert Enumerates(o[i], sets[i]);
    assert name in o[i];
    assert o[i][0] in o[i];
    if LongestPrefix(a, Flat(sets, o, |sets|), t) { StopsAtSet(a, sets, o, i, t); }
  }

  lemma SameStop(
    a: Answers, sets: seq<NodeSet>, o: seq<seq<string>>, o': seq<seq<string>>, i: nat, t: seq<string>, t': seq<string>)
    requires AllEnumerate(o, sets) && AllEnumerate(o', sets) && FirstBad(a, sets, i) && NoneResolves(a, sets[i])
    ensures LongestPrefix(a, Flat(sets, o, |sets|), t) && LongestPrefix(a, Flat(sets, o', |sets|), t') ==>
              multiset(t) == multiset(t')
  {
    hide Resolve, Flat, LongestPrefix, Enumerates, HasBad, NoneResolves;
    UniformStop(a, sets, o, i, t);
    UniformStop(a, sets, o', i, t');
    FlatMultiset(sets, o, o', i);
    MapMultiset(Target(a), Flat(sets, o, i), Flat(sets, o', i));
  }

  /** Without any unresolvable node every order is complete. */
  lemma AllGood(
    a: Answers, sets: seq<NodeSet>, o: seq<seq<string>>, o': seq<seq<string>>, t: seq<string>, t': seq<string>)
    requires AllEnumerate(o, sets) && AllEnumerate(o', sets) && forall j :: 0 <= j < |sets| ==> !HasBad(a, sets[j])
    requires LongestPrefix(a, Flat(sets, o, |sets|), t) && LongestPrefix(a, Flat(sets, o', |sets|), t')
    ensures multiset(t) == multiset(t')
  {
    hide Resolve, Flat, LongestPrefix, Enumerates, HasBad, Covers;
    var flat := Flat(sets, o, |sets|);
    FlatCovered(a, sets, o, |sets|);
    AllDone(a, flat, Map(Target(a), flat));
    PrefixIsUnique(a, flat, t, Map(Target(a), flat));
    AnyOrderWhenComplete(a, sets, o, o', t, t');
  }

  // ---------------------------------------------------------------- two orders that differ

  /** Some enumeration of a finite set of names. */
  lemma {:induction false} Enumerate(names: set<string>) returns (order: seq<string>)
    ensures (forall name :: name in order <==> name in names)
    ensures forall i, j :: 0 <= i < j < |order| ==> order[i] != order[j]
    decreases |names|
  {
    if names == {} {
      order := [];
    } else {
      var x :| x in names;
      var rest := Enumerate(names - {x});
      order := [x] + rest;
    }
  }

  /** An enumeration that starts with a given name. */
  lemma EnumerateFrom(ns: NodeSet, first: string) returns (order: seq<string>)
    requires first in ns.nodes
    ensures Enumerates(order, ns) && order != [] && order[0] == first
  {
    var rest := Enumerate(ns.nodes.Keys - {first});
    order := [first] + rest;
  }

  lemma {:induction false} EnumerateAll(sets: seq<NodeSet>) returns (o: seq<seq<string>>)
    ensures AllEnumerate(o, sets)
    decreases |sets|
  {
    if sets == [] {
      o := [];
    } else {
      var last := Enumerate(sets[|sets| - 1].nodes.Keys);
      o := EnumerateAll(sets[..|sets| - 1]);
      assert forall i :: 0 <= i < |sets| - 1 ==> sets[i] == sets[..|sets| - 1][i];
      o := o + [last];
    }
  }

  lemma {:induction false} SomePrefix(a: Answers, nodes: seq<Node>) returns (t: seq<string>)
    ensures LongestPrefix(a, nodes, t)
    decreases |nodes|
  {
    hide Resolve;
    if nodes == [] {
      t := [];
    } else {
      var last := |nodes| - 1;
      t := SomePrefix(a, nodes[..last]);
      if |t| == last {
        assert nodes[..last][..last] == nodes[..last];
        if Resolve(a, nodes[last]) != "" {
          GoesOn(a, nodes[..last], nodes[last], t);
          t := t + [Resolve(a, nodes[last]) + NODE_EXPORTER_PORT];
          assert nodes[..last] + [nodes[last]] == nodes[..|t|];
        }
      } else {
        assert nodes[..last][..|t|] == nodes[..|t|];
      }
    }
  }

  lemma {:induction false} FlatAgrees(sets: seq<NodeSet>, o: seq<seq<string>>, o': seq<seq<string>>, n: nat)
    requires n <= |sets| == |o| == |o'| && forall j :: 0 <= j < n ==> o[j] == o'[j]
    ensures Flat(sets, o, n) == Flat(sets, o', n)
    decreases n
  {
    if n > 0 { FlatAgrees(sets, o, o', n - 1); }
  }

  /** The resolvable node is among the targets of an order that visits it first. */
  lemma GoesPast(a: Answers, sets: seq<NodeSet>, o: seq<seq<string>>, i: nat, t: seq<string>)
    requires AllEnumerate(o, sets) && FirstBad(a, sets, i) && o[i] != []
    requires Resolve(a, NodeOf(sets[i])(o[i][0])) != ""
    ensures LongestPrefix(a, Flat(sets, o, |sets|), t) ==> |t| > |Flat(sets, o, i)|
  {
    assert TELEMETRY in sets[i].services;
    hide Resolve, Flat, Enumerates, HasBad, Covers, LongestPrefix;
    var flat, node := Flat(sets, o, i), NodeOf(sets[i])(o[i][0]);
    NextNode(sets, o, i);
    FlatCovered(a, sets, o, i);
    GoesOn(a, flat, node, Map(Target(a), flat));
    if LongestPrefix(a, Flat(sets, o, |sets|), t) {
      AtLeast(a, Flat(sets, o, |sets|), flat + [node],
              Map(Target(a), flat) + [Resolve(a, node) + NODE_EXPORTER_PORT], t);
    }
  }

  lemma AtLeast(a: Answers, all: seq<Node>, done: seq<Node>, targets: seq<string>, t: seq<string>)
    requires Covers(a, done, targets) && done <= all && LongestPrefix(a, all, t)
    ensures |t| >= |done|
  {
    hide Resolve;
    assert forall i :: 0 <= i < |done| ==> all[i] == done[i];
  }

  /** Two enumerations of the same node sets that give different targets: one visits a
      resolvable node of the stopping node set first, the other an unresolvable one. */
  lemma TwoOrders(a: Answers, sets: seq<NodeSet>, i: nat, good: string, bad: string)
    returns (o: seq<seq<string>>, o': seq<seq<string>>, t: seq<string>, t': seq<string>)
    requires FirstBad(a, sets, i) && good in sets[i].nodes && bad in sets[i].nodes
    requires Resolve(a, NodeOf(sets[i])(good)) != "" && Resolve(a, NodeOf(sets[i])(bad)) == ""
    ensures AllEnumerate(o, sets) && AllEnumerate(o', sets)
    ensures LongestPrefix(a, Flat(sets, o, |sets|), t) && LongestPrefix(a, Flat(sets, o', |sets|), t')
    ensures |t'| < |t|
  {
    hide Resolve, Flat, LongestPrefix, Enumerates, HasBad;
    var any := EnumerateAll(sets);
    var x := EnumerateFrom(sets[i], good);
    var y := EnumerateFrom(sets[i], bad);
    o, o' := any[i := x], any[i := y];
    t := SomePrefix(a, Flat(sets, o, |sets|));
    t' := SomePrefix(a, Flat(sets, o', |sets|));
    GoesPast(a, sets, o, i, t);
    StopsAtSet(a, sets, o', i, t');
    FlatAgrees(sets, o, o', i);
  }

  /** Exactly when the iteration order does not matter: the first node set with
      telemetry that holds an unresolvable node, if there is one, holds no resolvable
      node at all. */
  lemma OrderFreeExactly(a: Answers, sets: seq<NodeSet>)
    ensures OrderFree(a, sets) <==> forall i: nat :: FirstBad(a, sets, i) ==> NoneResolves(a, sets[i])
  {
    hide Resolve, Flat, LongestPrefix, Enumerates, HasBad, NoneResolves, OrderFree;
    if i: nat :| FirstBad(a, sets, i) && !NoneResolves(a, sets[i]) {
      MixedIsNotOrderFree(a, sets, i);
    } else {
      UniformOrderFree(a, sets);
    }
  }

  lemma MixedIsNotOrderFree(a: Answers, sets: seq<NodeSet>, i: nat)
    requires FirstBad(a, sets, i) && !NoneResolves(a, sets[i])
    ensures !OrderFree(a, sets)
  {
    hide Resolve, Flat, LongestPrefix;
    var good :| good in sets[i].nodes && Resolve(a, NodeOf(sets[i])(good)) != "";
    var bad :| bad in sets[i].nodes && Resolve(a, NodeOf(sets[i])(bad)) == "";
    var o, o', t, t' := TwoOrders(a, sets, i, good, bad);
    assert |multiset(t)| == |t| && |multiset(t')| == |t'|;
  }

  lemma UniformOrderFree(a: Answers, sets: seq<NodeSet>)
    requires forall i: nat :: FirstBad(a, sets, i) ==> NoneResolves(a, sets[i])
    ensures OrderFree(a, sets)
  {
    hide Resolve, Flat, LongestPrefix, Enumerates, HasBad, NoneResolves;
    forall o, o', t, t' |
      AllEnumerate(o, sets) && AllEnumerate(o', sets)
      && LongestPrefix(a, Flat(sets, o, |sets|), t) && LongestPrefix(a, Flat(sets, o', |sets|), t')
      ensures multiset(t) == multiset(t')
    {
      var i := FindBad(a, sets, 0);
      if i < |sets| {
        assert FirstBad(a, sets, i);
        SameStop(a, sets, o, o', i, t, t');
      } else {
        AllGood(a, sets, o, o', t, t');
      }
    }
  }

  /** The first such node set from index n on, or the number of node sets. */
  lemma {:induction false} FindBad(a: Answers, sets: seq<NodeSet>, n: nat) returns (i: nat)
    requires n <= |sets| && forall j :: 0 <= j < n ==> !HasBad(a, sets[j])
    ensures i <= |sets| && forall j :: 0 <= j < i ==> !HasBad(a, sets[j])
    ensures i < |sets| ==> HasBad(a, sets[i])
    decreases |sets| - n
  {
    hide HasBad;
    if n == |sets| || HasBad(a, sets[n]) {
      i := n;
    } else {
      i := FindBad(a, sets, n + 1);
    }
  }
}
