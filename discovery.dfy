/**
 * Discovery of the proxy's backends: which cache clusters are tagged as
 * members, how a node's endpoint becomes a proxy server entry, and the scan
 * over all clusters that builds the per-engine server lists.
 */
module Discovery {
  import opened Wrappers
  import Decimal
  import Identity

  const MemberTagKey := "PhhhotoTwemproxyMember"
  const MemberTagValue := "true"
  const Available := "available"
  const Redis := "redis"
  const Memcached := "memcached"

  datatype Tag = Tag(key: string, value: string)

  datatype Endpoint = Endpoint(address: string, port: int)

  datatype CacheNode = CacheNode(id: string, status: string, endpoint: Endpoint)

  datatype CacheCluster = CacheCluster(id: string, engine: string, status: string, nodes: seq<CacheNode>)

  /**
   * What the cloud answers during one run: the session's region, the
   * account id, and the tag list the tagging service returns for each
   * resource name it knows. A name missing from `tags` is a failed lookup.
   */
  datatype CloudView = CloudView(region: string, account: string, tags: map<string, seq<Tag>>)

  /** Engine name to its ordered list of `host:port:weight` entries. */
  type EngineAddresses = map<string, seq<string>>

  /** The exceptions that abort a scan. */
  datatype Error =
    | TagLookupFailed(arn: string)   // the tag listing for this resource name failed
    | UnknownEngine(engine: string)  // no server list is kept for this engine (a KeyError)

  // ----- Membership -----

  /** Whether a tag list holds the membership tag, compared exactly and case-sensitively. */
  predicate HasMemberTag(tags: seq<Tag>)
    ensures HasMemberTag(tags) <==>
      exists i :: 0 <= i < |tags| && tags[i].key == MemberTagKey && tags[i].value == MemberTagValue
  {
    if tags == [] then false
    else if tags[0].key == MemberTagKey && tags[0].value == MemberTagValue then true
    else
      assert forall i :: 0 < i < |tags| ==> tags[i] == tags[1..][i - 1];
      HasMemberTag(tags[1..])
  }

  /** Looks up the tags of a cluster's resource name and tests them for membership. */
  function MembershipOf(cloud: CloudView, clusterId: string): (r: Result<bool, Error>)
    ensures var arn := Identity.ElasticacheArn(cloud.region, cloud.account, clusterId);
            && (r.Err? <==> arn !in cloud.tags)
            && (r.Err? ==> r.error == TagLookupFailed(arn))
            && (r == Ok(true) <==> arn in cloud.tags && HasMemberTag(cloud.tags[arn]))
  {
    var arn := Identity.ElasticacheArn(cloud.region, cloud.account, clusterId);
    if arn in cloud.tags then Ok(HasMemberTag(cloud.tags[arn])) else Err(TagLookupFailed(arn))
  }

  // ----- Address format -----

  function LastIndexOf(s: string, c: char): (r: Option<nat>)
    ensures r.Some? ==> r.value < |s| && s[r.value] == c && forall k :: r.value < k < |s| ==> s[k] != c
    ensures r.None? ==> forall k :: 0 <= k < |s| ==> s[k] != c
  {
    if s == [] then None
    else if s[|s| - 1] == c then Some(|s| - 1)
    else LastIndexOf(s[..|s| - 1], c)
  }

  /**
   * Reads a `host:port:1` entry back, splitting at the last two colons, so
   * a host that itself holds colons is kept whole.
   */
  function ParseTwemproxyAddress(s: string): Option<Endpoint>
  {
    if |s| < 2 || s[|s| - 2..] != ":1" then None
    else
      var hostPort := s[..|s| - 2];
      match LastIndexOf(hostPort, ':')
      case None => None
      case Some(k) =>
        match Decimal.ParseInt(hostPort[k + 1..])
        case None => None
        case Some(port) => Some(Endpoint(hostPort[..k], port))
  }

  /**
   * The proxy's server entry for an endpoint: the host verbatim, a colon,
   * the port in decimal, and the weight, fixed at 1. `AddressRoundTrip`
   * shows the port can be read back from it.
   */
  function TwemproxyAddress(e: Endpoint): (entry: string)
    ensures |entry| >= |e.address| + 4 && entry[..|e.address|] == e.address && entry[|e.address|] == ':'
    ensures entry[|entry| - 2] == ':' && entry[|entry| - 1] == '1'
  {
    e.address + ":" + Decimal.IntToString(e.port) + ":1"
  }

  /** The entry holds the endpoint's host and port verbatim: reading it back gives the endpoint. */
  lemma AddressRoundTrip(e: Endpoint)
    ensures ParseTwemproxyAddress(TwemproxyAddress(e)) == Some(e)
  {
    var port := Decimal.IntToString(e.port);
    var s := TwemproxyAddress(e);
    var hostPort := e.address + ":" + port;
    assert s == hostPort + ":1";
    assert s[..|s| - 2] == hostPort;
    assert s[|s| - 2..] == ":1";
    Decimal.IntToStringChars(e.port);
    assert hostPort[|e.address|] == ':';
    assert forall j :: |e.address| < j < |hostPort| ==> hostPort[j] == port[j - |e.address| - 1];
    assert LastIndexOf(hostPort, ':') == Some(|e.address|);
    assert hostPort[|e.address| + 1..] == port;
    assert hostPort[..|e.address|] == e.address;
    Decimal.IntRoundTrip(e.port);
  }

  lemma AddressExample()
    ensures TwemproxyAddress(Endpoint("h", 11211)) == "h:11211:1"
  {
  }

  // ----- What a scan should produce -----

  /** The entries of a cluster's available nodes, in node order. */
  function AvailableNodeAddresses(nodes: seq<CacheNode>): seq<string>
  {
    if nodes == [] then []
    else
      var last := nodes[|nodes| - 1];
      AvailableNodeAddresses(nodes[..|nodes| - 1])
        + (if last.status == Available then [TwemproxyAddress(last.endpoint)] else [])
  }

  /** An available cluster whose tags include the membership tag. */
  predicate Qualifies(c: CacheCluster, cloud: CloudView)
  {
    c.status == Available && MembershipOf(cloud, c.id) == Ok(true)
  }

  /** The entries of the qualifying clusters of one engine, in cluster order, then node order. */
  function EngineServers(clusters: seq<CacheCluster>, engine: string, cloud: CloudView): seq<string>
  {
    if clusters == [] then []
    else
      var last := clusters[|clusters| - 1];
      EngineServers(clusters[..|clusters| - 1], engine, cloud)
        + (if Qualifies(last, cloud) && last.engine == engine then AvailableNodeAddresses(last.nodes) else [])
  }

  /**
   * The error a scan raises on reaching this cluster: its tag lookup fails
   * (only asked for an available cluster), or it qualifies, has an available
   * node and its engine has no server list.
   */
  function ClusterError(c: CacheCluster, cloud: CloudView): Option<Error>
  {
    if c.status != Available then None
    else
      match MembershipOf(cloud, c.id)
      case Err(e) => Some(e)
      case Ok(member) =>
        if member && c.engine != Redis && c.engine != Memcached && AvailableNodeAddresses(c.nodes) != []
        then Some(UnknownEngine(c.engine))
        else None
  }

  /** The error of the first cluster, in listing order, that raises one. */
  function FirstError(clusters: seq<CacheCluster>, cloud: CloudView): Option<Error>
  {
    if clusters == [] then None
    else
      var earlier := FirstError(clusters[..|clusters| - 1], cloud);
      if earlier.Some? then earlier else ClusterError(clusters[|clusters| - 1], cloud)
  }

  function Gathered(clusters: seq<CacheCluster>, cloud: CloudView): EngineAddresses
  {
    map[Redis := EngineServers(clusters, Redis, cloud), Memcached := EngineServers(clusters, Memcached, cloud)]
  }

  /** The outcome of scanning `clusters`: the first error, or both engines' server lists. */
  function Discovered(clusters: seq<CacheCluster>, cloud: CloudView): Result<EngineAddresses, Error>
  {
    match FirstError(clusters, cloud)
    case Some(e) => Err(e)
    case None => Ok(Gathered(clusters, cloud))
  }

  // ----- The scan -----

  /**
   * Walks the clusters in order: skips an unavailable one before its tags
   * are asked for, skips one without the membership tag, and appends the
   * entries of a member's available nodes under its engine.
   */
  method CollectAddresses(clusters: seq<CacheCluster>, cloud: CloudView) returns (r: Result<EngineAddresses, Error>)
    ensures r == Discovered(clusters, cloud)
    ensures r.Ok? ==> r.value.Keys == {Redis, Memcached}
  {
    var addresses: EngineAddresses := map[Redis := [], Memcached := []];
    for i := 0 to |clusters|
      invariant FirstError(clusters[..i], cloud) == None
      invariant addresses == Gathered(clusters[..i], cloud)
    {
      var cluster := clusters[i];
      ScanStep(clusters, i, cloud);
      ghost var redis, memcached := addresses[Redis], addresses[Memcached];
      if cluster.status != Available {
        assert redis + [] == redis && memcached + [] == memcached;
        continue;
      }
      var member := MembershipOf(cloud, cluster.id);
      if member.Err? {
        FirstErrorPrefix(clusters, i + 1, cloud);
        return Err(member.error);
      }
      if !member.value {
        assert redis + [] == redis && memcached + [] == memcached;
        continue;
      }
      var appended := AppendNodeAddresses(addresses, cluster.engine, cluster.nodes);
      if appended.Err? {
        FirstErrorPrefix(clusters, i + 1, cloud);
        return appended;
      }
      addresses := appended.value;
      assert redis + [] == redis && memcached + [] == memcached;
      assert addresses == map[Redis := EngineServers(clusters[..i + 1], Redis, cloud),
                              Memcached := EngineServers(clusters[..i + 1], Memcached, cloud)];
    }
    assert clusters[..|clusters|] == clusters;
    r := Ok(addresses);
  }

  /**
   * The inner loop of the scan over one member cluster's nodes: each
   * available node's entry is appended under `engine`; an engine with no
   * list fails at its first available node.
   */
  method AppendNodeAddresses(addresses: EngineAddresses, engine: string, nodes: seq<CacheNode>)
    returns (r: Result<EngineAddresses, Error>)
    ensures engine in addresses ==> r == Ok(addresses[engine := addresses[engine] + AvailableNodeAddresses(nodes)])
    ensures engine !in addresses ==>
      r == if AvailableNodeAddresses(nodes) == [] then Ok(addresses) else Err(UnknownEngine(engine))
  {
    var current := addresses;
    assert nodes[..0] == [];
    assert engine in addresses ==> addresses[engine] + [] == addresses[engine];
    assert engine in addresses ==> addresses[engine := addresses[engine]] == addresses;
    for j := 0 to |nodes|
      invariant engine in addresses ==>
        current == addresses[engine := addresses[engine] + AvailableNodeAddresses(nodes[..j])]
      invariant engine !in addresses ==> current == addresses && AvailableNodeAddresses(nodes[..j]) == []
    {
      var node := nodes[j];
      NodeStep(nodes, j);
      if node.status != Available {
        assert AvailableNodeAddresses(nodes[..j]) + [] == AvailableNodeAddresses(nodes[..j]);
        continue;
      }
      var address := TwemproxyAddress(node.endpoint);
      if engine !in current {
        AvailableNodeListed(nodes, j);
        return Err(UnknownEngine(engine));
      }
      ExtendStep(addresses, engine, nodes, j);
      current := current[engine := current[engine] + [address]];
    }
    assert nodes[..|nodes|] == nodes;
    r := Ok(current);
  }

  /**
   * `get_engine_addresses`: `listing` is the cluster listing, or None when
   * no credentials were found, in which case there is nothing to report.
   */
  method GetEngineAddresses(listing: Option<seq<CacheCluster>>, cloud: CloudView)
    returns (r: Result<Option<EngineAddresses>, Error>)
    ensures listing.None? ==> r == Ok(None)
    ensures listing.Some? ==> match Discovered(listing.value, cloud)
                              case Err(e) => r == Err(e)
                              case Ok(a) => r == Ok(Some(a))
  {
    if listing.None? {
      return Ok(None);
    }
    var collected := CollectAddresses(listing.value, cloud);
    match collected
    case Err(e) => r := Err(e);
    case Ok(a) => r := Ok(Some(a));
  }

  // ----- Properties of the scan -----

  lemma {:induction false} FirstErrorAppend(a: seq<CacheCluster>, b: seq<CacheCluster>, cloud: CloudView)
    ensures FirstError(a + b, cloud) == if FirstError(a, cloud).Some? then FirstError(a, cloud) else FirstError(b, cloud)
    decreases |b|
  {
    if b == [] {
      assert a + b == a;
    } else {
      var b' := b[..|b| - 1];
      assert (a + b)[..|a + b| - 1] == a + b';
      assert (a + b)[|a + b| - 1] == b[|b| - 1];
      FirstErrorAppend(a, b', cloud);
    }
  }

  /** One more cluster of the listing: how the expected error and server lists extend. */
  lemma ScanStep(clusters: seq<CacheCluster>, i: nat, cloud: CloudView)
    requires i < |clusters|
    ensures FirstError(clusters[..i + 1], cloud)
      == if FirstError(clusters[..i], cloud).Some? then FirstError(clusters[..i], cloud) else ClusterError(clusters[i], cloud)
    ensures forall engine ::
              EngineServers(clusters[..i + 1], engine, cloud) ==
              EngineServers(clusters[..i], engine, cloud)
              + (if Qualifies(clusters[i], cloud) && clusters[i].engine == engine
                 then AvailableNodeAddresses(clusters[i].nodes) else [])
  {
    assert clusters[..i + 1][..i] == clusters[..i];
  }

  lemma FirstErrorPrefix(clusters: seq<CacheCluster>, n: nat, cloud: CloudView)
    requires n <= |clusters| && FirstError(clusters[..n], cloud).Some?
    ensures FirstError(clusters, cloud) == FirstError(clusters[..n], cloud)
  {
    assert clusters == clusters[..n] + clusters[n..];
    FirstErrorAppend(clusters[..n], clusters[n..], cloud);
  }

  /** A scan fails exactly when some cluster raises an error. */
  lemma {:induction false} FirstErrorIff(clusters: seq<CacheCluster>, cloud: CloudView)
    ensures FirstError(clusters, cloud).Some? <==> exists i :: 0 <= i < |clusters| && ClusterError(clusters[i], cloud).Some?
  {
    if clusters != [] {
      var prefix := clusters[..|clusters| - 1];
      FirstErrorIff(prefix, cloud);
      assert forall i :: 0 <= i < |prefix| ==> prefix[i] == clusters[i];
    }
  }

  /** One more node of a cluster: how its list of entries extends. */
  lemma NodeStep(nodes: seq<CacheNode>, j: nat)
    requires j < |nodes|
    ensures AvailableNodeAddresses(nodes[..j + 1]) ==
      AvailableNodeAddresses(nodes[..j])
      + (if nodes[j].status == Available then [TwemproxyAddress(nodes[j].endpoint)] else [])
  {
    assert nodes[..j + 1][..j] == nodes[..j];
  }

  /** Appending an available node's entry to the list built so far gives the list one node further on. */
  lemma ExtendStep(addresses: EngineAddresses, engine: string, nodes: seq<CacheNode>, j: nat)
    requires engine in addresses && j < |nodes| && nodes[j].status == Available
    ensures var sofar := addresses[engine] + AvailableNodeAddresses(nodes[..j]);
            addresses[engine := sofar][engine := sofar + [TwemproxyAddress(nodes[j].endpoint)]]
              == addresses[engine := addresses[engine] + AvailableNodeAddresses(nodes[..j + 1])]
  {
    NodeStep(nodes, j);
    var prior, sofar := addresses[engine], AvailableNodeAddresses(nodes[..j]);
    assert prior + sofar + [TwemproxyAddress(nodes[j].endpoint)] == prior + (sofar + [TwemproxyAddress(nodes[j].endpoint)]);
  }

  /** An available node always lists an entry for its cluster. */
  lemma AvailableNodeListed(nodes: seq<CacheNode>, j: nat)
    requires j < |nodes| && nodes[j].status == Available
    ensures AvailableNodeAddresses(nodes) != []
  {
    AvailableNodeAddressesIff(nodes, TwemproxyAddress(nodes[j].endpoint));
  }

  lemma {:induction false} AvailableNodeAddressesAppend(a: seq<CacheNode>, b: seq<CacheNode>)
    ensures AvailableNodeAddresses(a + b) == AvailableNodeAddresses(a) + AvailableNodeAddresses(b)
    decreases |b|
  {
    if b == [] {
      assert a + b == a;
    } else {
      var b' := b[..|b| - 1];
      assert (a + b)[..|a + b| - 1] == a + b';
      assert (a + b)[|a + b| - 1] == b[|b| - 1];
      AvailableNodeAddressesAppend(a, b');
    }
  }

  /**
   * Within a cluster, a node contributes its entry exactly when it is
   * available, at its place in node order, and its siblings are unaffected.
   */
  lemma NodeContribution(before: seq<CacheNode>, node: CacheNode, after: seq<CacheNode>)
    ensures AvailableNodeAddresses(before + [node] + after)
      == AvailableNodeAddresses(before)
         + (if node.status == Available then [TwemproxyAddress(node.endpoint)] else [])
         + AvailableNodeAddresses(after)
  {
    AvailableNodeAddressesAppend(before + [node], after);
    AvailableNodeAddressesAppend(before, [node]);
  }

  /** An entry is listed for a cluster exactly when some available node of it has that entry. */
  lemma {:induction false} AvailableNodeAddressesIff(nodes: seq<CacheNode>, entry: string)
    ensures entry in AvailableNodeAddresses(nodes) <==>
      exists k :: 0 <= k < |nodes| && nodes[k].status == Available && TwemproxyAddress(nodes[k].endpoint) == entry
  {
    if nodes != [] {
      var prefix := nodes[..|nodes| - 1];
      AvailableNodeAddressesIff(prefix, entry);
      assert forall k :: 0 <= k < |prefix| ==> prefix[k] == nodes[k];
    }
  }

  lemma {:induction false} EngineServersAppend(a: seq<CacheCluster>, b: seq<CacheCluster>, engine: string, cloud: CloudView)
    ensures EngineServers(a + b, engine, cloud) == EngineServers(a, engine, cloud) + EngineServers(b, engine, cloud)
    decreases |b|
  {
    if b == [] {
      assert a + b == a;
    } else {
      var b' := b[..|b| - 1];
      assert (a + b)[..|a + b| - 1] == a + b';
      assert (a + b)[|a + b| - 1] == b[|b| - 1];
      EngineServersAppend(a, b', engine, cloud);
    }
  }

  /**
   * Server lists follow listing order: scanning two listings one after the
   * other gives the first listing's entries followed by the second's.
   */
  lemma ScanFollowsClusterOrder(a: seq<CacheCluster>, b: seq<CacheCluster>, cloud: CloudView)
    requires Discovered(a + b, cloud).Ok?
    ensures Discovered(a, cloud).Ok? && Discovered(b, cloud).Ok?
    ensures forall e :: e in {Redis, Memcached} ==>
      Discovered(a + b, cloud).value[e] == Discovered(a, cloud).value[e] + Discovered(b, cloud).value[e]
  {
    FirstErrorAppend(a, b, cloud);
    EngineServersAppend(a, b, Redis, cloud);
    EngineServersAppend(a, b, Memcached, cloud);
  }

  /** A cluster that neither raises an error nor qualifies can be dropped from the listing without effect. */
  lemma InertClusterIgnored(before: seq<CacheCluster>, c: CacheCluster, after: seq<CacheCluster>, cloud: CloudView)
    requires ClusterError(c, cloud).None? && !Qualifies(c, cloud)
    ensures Discovered(before + [c] + after, cloud) == Discovered(before + after, cloud)
  {
    FirstErrorAppend(before, [c], cloud);
    FirstErrorAppend(before + [c], after, cloud);
    FirstErrorAppend(before, after, cloud);
    assert [c][..0] == [];
    forall e | e in {Redis, Memcached}
      ensures EngineServers(before + [c] + after, e, cloud) == EngineServers(before + after, e, cloud)
    {
      EngineServersAppend(before, [c], e, cloud);
      EngineServersAppend(before + [c], after, e, cloud);
      EngineServersAppend(before, after, e, cloud);
    }
  }

  /** A cluster that is not available contributes nothing, whatever its tags. */
  lemma UnavailableClusterIgnored(before: seq<CacheCluster>, c: CacheCluster, after: seq<CacheCluster>, cloud: CloudView)
    requires c.status != Available
    ensures Discovered(before + [c] + after, cloud) == Discovered(before + after, cloud)
  {
    InertClusterIgnored(before, c, after, cloud);
  }

  /** An available cluster whose tags lack the membership tag contributes nothing. */
  lemma UntaggedClusterIgnored(before: seq<CacheCluster>, c: CacheCluster, after: seq<CacheCluster>, cloud: CloudView)
    requires c.status == Available
    requires var arn := Identity.ElasticacheArn(cloud.region, cloud.account, c.id);
      arn in cloud.tags && !HasMemberTag(cloud.tags[arn])
    ensures Discovered(before + [c] + after, cloud) == Discovered(before + after, cloud)
  {
    InertClusterIgnored(before, c, after, cloud);
  }

  /**
   * The tags of unavailable clusters are never asked for: two clouds that
   * agree on the tags of every available cluster give the same scan.
   */
  lemma {:induction false} UnavailableTagsNotConsulted(clusters: seq<CacheCluster>, cloud: CloudView, tags: map<string, seq<Tag>>)
    requires forall i :: 0 <= i < |clusters| && clusters[i].status == Available ==>
      MembershipOf(cloud, clusters[i].id) == MembershipOf(cloud.(tags := tags), clusters[i].id)
    ensures Discovered(clusters, cloud) == Discovered(clusters, cloud.(tags := tags))
  {
    TagsAgreeingOnAvailable(clusters, cloud, tags);
  }

  lemma {:induction false} TagsAgreeingOnAvailable(clusters: seq<CacheCluster>, cloud: CloudView, tags: map<string, seq<Tag>>)
    requires forall i :: 0 <= i < |clusters| && clusters[i].status == Available ==>
      MembershipOf(cloud, clusters[i].id) == MembershipOf(cloud.(tags := tags), clusters[i].id)
    ensures FirstError(clusters, cloud) == FirstError(clusters, cloud.(tags := tags))
    ensures forall engine :: EngineServers(clusters, engine, cloud) == EngineServers(clusters, engine, cloud.(tags := tags))
  {
    var n := |clusters|;
    if n > 0 {
      var prefix := clusters[..n - 1];
      assert forall i :: 0 <= i < |prefix| ==> prefix[i] == clusters[i];
      TagsAgreeingOnAvailable(prefix, cloud, tags);
    }
  }

  /** An entry is in an engine's list when the listing without its last cluster has it, or the last cluster does. */
  lemma EngineServersLast(clusters: seq<CacheCluster>, engine: string, cloud: CloudView, entry: string)
    requires clusters != []
    ensures var last := clusters[|clusters| - 1];
            entry in EngineServers(clusters, engine, cloud) <==>
              || entry in EngineServers(clusters[..|clusters| - 1], engine, cloud)
              || (Qualifies(last, cloud) && last.engine == engine && entry in AvailableNodeAddresses(last.nodes))
  {
  }

  /**
   * An entry is in an engine's list exactly when it is the entry of an
   * available node of a qualifying cluster of that engine.
   */
  lemma {:induction false} EngineServersIff(clusters: seq<CacheCluster>, engine: string, cloud: CloudView, entry: string)
    ensures entry in EngineServers(clusters, engine, cloud) <==>
      exists i :: 0 <= i < |clusters| && Qualifies(clusters[i], cloud) && clusters[i].engine == engine
        && entry in AvailableNodeAddresses(clusters[i].nodes)
  {
    if clusters != [] {
      var n := |clusters|;
      var prefix := clusters[..n - 1];
      var last := clusters[n - 1];
      var lastListsIt := Qualifies(last, cloud) && last.engine == engine && entry in AvailableNodeAddresses(last.nodes);
      EngineServersLast(clusters, engine, cloud, entry);
      EngineServersIff(prefix, engine, cloud, entry);
      if entry in EngineServers(clusters, engine, cloud) {
        if entry in EngineServers(prefix, engine, cloud) {
          var i :| 0 <= i < |prefix| && Qualifies(prefix[i], cloud) && prefix[i].engine == engine
                   && entry in AvailableNodeAddresses(prefix[i].nodes);
          assert prefix[i] == clusters[i];
        } else {
          assert lastListsIt;
        }
      }
      if exists i :: 0 <= i < n && Qualifies(clusters[i], cloud) && clusters[i].engine == engine
                     && entry in AvailableNodeAddresses(clusters[i].nodes) {
        var i :| 0 <= i < n && Qualifies(clusters[i], cloud) && clusters[i].engine == engine
                 && entry in AvailableNodeAddresses(clusters[i].nodes);
        if i < n - 1 {
          assert prefix[i] == clusters[i];
        } else {
          assert lastListsIt;
        }
      }
    }
  }

  /** With no available cluster nothing is asked of the cloud and both lists come out empty. */
  lemma {:induction false} NoAvailableClusterScansEmpty(clusters: seq<CacheCluster>, cloud: CloudView)
    requires forall i :: 0 <= i < |clusters| ==> clusters[i].status != Available
    ensures FirstError(clusters, cloud) == None
    ensures forall engine :: EngineServers(clusters, engine, cloud) == []
    ensures Discovered(clusters, cloud) == Ok(map[Redis := [], Memcached := []])
  {
    if clusters != [] {
      var prefix := clusters[..|clusters| - 1];
      assert forall i :: 0 <= i < |prefix| ==> prefix[i] == clusters[i];
      NoAvailableClusterScansEmpty(prefix, cloud);
    }
    assert EngineServers(clusters, Redis, cloud) == [] && EngineServers(clusters, Memcached, cloud) == [];
    assert Gathered(clusters, cloud) == map[Redis := [], Memcached := []];
  }

  /** The entry of the example's one available node. */
  lemma ExampleEntry()
    ensures TwemproxyAddress(Endpoint("10.0.0.1", 11211)) == "10.0.0.1:11211:1"
  {
    assert Decimal.NatToString(11211) == "11211" by {
      assert Decimal.NatToString(1) == "1";
      assert Decimal.NatToString(11) == "11";
      assert Decimal.NatToString(112) == "112";
      assert Decimal.NatToString(1121) == "1121";
    }
  }

  /** The two-cluster example: an available, tagged memcached cluster with one available node, and a `creating` one. */
  lemma ScanExample(cloud: CloudView)
    requires cloud.tags == map[Identity.ElasticacheArn(cloud.region, cloud.account, "a") := [Tag(MemberTagKey, MemberTagValue)]]
    ensures var a := CacheCluster("a", Memcached, Available,
                                  [CacheNode("0001", Available, Endpoint("10.0.0.1", 11211))]);
            var b := CacheCluster("b", Memcached, "creating", []);
            Discovered([a, b], cloud) == Ok(map[Memcached := ["10.0.0.1:11211:1"], Redis := []])
  {
    var n := CacheNode("0001", Available, Endpoint("10.0.0.1", 11211));
    var a := CacheCluster("a", Memcached, Available, [n]);
    var b := CacheCluster("b", Memcached, "creating", []);
    assert Qualifies(a, cloud) by {
      assert HasMemberTag([Tag(MemberTagKey, MemberTagValue)]);
    }
    assert [a, b][..1] == [a];
    assert [a][..0] == [];
    assert AvailableNodeAddresses([n]) == ["10.0.0.1:11211:1"] by {
      assert [n][..0] == [];
      ExampleEntry();
    }
    assert EngineServers([a], Memcached, cloud) == ["10.0.0.1:11211:1"];
    assert EngineServers([a, b], Memcached, cloud) == ["10.0.0.1:11211:1"];
    assert !Qualifies(b, cloud);
    assert EngineServers([a], Redis, cloud) == [];
    assert EngineServers([a, b], Redis, cloud) == [];
    assert ClusterError(a, cloud) == None;
    assert ClusterError(b, cloud) == None;
    assert FirstError([a], cloud) == None;
    assert FirstError([a, b], cloud) == None;
    assert Gathered([a, b], cloud) == map[Memcached := ["10.0.0.1:11211:1"], Redis := []];
  }
}
