/**
 * One run of the tool: scan the clusters (asking for the account id only
 * when a cluster's tags are needed), then rewrite the configuration
 * document; without credentials the document passes through unchanged.
 */
module Autoconf {
  import opened Wrappers
  import Identity
  import Discovery
  import ConfigRewrite

  datatype RunError =
    | ScanFailed(scan: Discovery.Error)
    | RewriteFailed(rewrite: ConfigRewrite.Error)

  /** Whether the scan reaches a tag lookup, which is where the account id is first needed. */
  predicate NeedsAccount(listing: Option<seq<Discovery.CacheCluster>>)
  {
    listing.Some? && exists i :: 0 <= i < |listing.value| && listing.value[i].status == Discovery.Available
  }

  /** The document a run writes, or the error that aborts it; `listing` is None when there are no credentials. */
  function Regenerated(listing: Option<seq<Discovery.CacheCluster>>, cloud: Discovery.CloudView, doc: ConfigRewrite.Value)
    : Result<ConfigRewrite.Value, RunError>
  {
    var scanned: Result<Option<Discovery.EngineAddresses>, Discovery.Error> :=
      match listing
      case None => Ok(None)
      case Some(clusters) =>
        match Discovery.Discovered(clusters, cloud)
        case Err(e) => Err(e)
        case Ok(a) => Ok(Some(a));
    match scanned
    case Err(e) => Err(ScanFailed(e))
    case Ok(addresses) =>
      match ConfigRewrite.UpdatedConfig(doc, addresses)
      case Err(e) => Err(RewriteFailed(e))
      case Ok(updated) => Ok(updated)
  }

  /**
   * The run, with the process's account-id cache. `callerAccount` is what
   * the identity service answers, `listing` the cluster listing (None
   * without credentials), `tags` the tagging service's answers.
   */
  method Run(cache: Identity.AccountIdCache, callerAccount: string, listing: Option<seq<Discovery.CacheCluster>>,
             region: string, tags: map<string, seq<Discovery.Tag>>, doc: ConfigRewrite.Value)
    returns (r: Result<ConfigRewrite.Value, RunError>)
    requires cache.Valid()
    modifies cache
    ensures cache.Valid()
    ensures var account := if old(cache.cached).Some? then old(cache.cached).value else callerAccount;
            && r == Regenerated(listing, Discovery.CloudView(region, account, tags), doc)
            && cache.cached == (if NeedsAccount(listing) then Some(account) else old(cache.cached))
    ensures listing.None? ==> r == Ok(doc)
  {
    ghost var account := if cache.cached.Some? then cache.cached.value else callerAccount;
    var scanAccount := callerAccount;
    if NeedsAccount(listing) {
      scanAccount := cache.GetAccountId(callerAccount);
    } else if listing.Some? {
      Discovery.NoAvailableClusterScansEmpty(listing.value, Discovery.CloudView(region, scanAccount, tags));
      Discovery.NoAvailableClusterScansEmpty(listing.value, Discovery.CloudView(region, account, tags));
    }
    var found := Discovery.GetEngineAddresses(listing, Discovery.CloudView(region, scanAccount, tags));
    if found.Err? {
      return Err(ScanFailed(found.error));
    }
    var updated := ConfigRewrite.UpdateTwemproxyConfig(doc, found.value);
    match updated
    case Err(e) => r := Err(RewriteFailed(e));
    case Ok(v) => r := Ok(v);
  }

  /**
   * The two-cluster example end to end: of an available, tagged memcached
   * cluster with one available node and a cluster still being created,
   * only the first node ends up in the memcached section, and the redis
   * section's list is emptied.
   */
  lemma RunExample(cloud: Discovery.CloudView, memcachedSection: map<string, ConfigRewrite.Value>,
                   redisSection: map<string, ConfigRewrite.Value>)
    requires cloud.tags == map[Identity.ElasticacheArn(cloud.region, cloud.account, "a") :=
                                 [Discovery.Tag(Discovery.MemberTagKey, Discovery.MemberTagValue)]]
    ensures
      var a := Discovery.CacheCluster("a", Discovery.Memcached, Discovery.Available,
                                      [Discovery.CacheNode("0001", Discovery.Available, Discovery.Endpoint("10.0.0.1", 11211))]);
      var b := Discovery.CacheCluster("b", Discovery.Memcached, "creating", []);
      var doc := ConfigRewrite.Mapping(map[Discovery.Memcached := ConfigRewrite.Mapping(memcachedSection),
                                           Discovery.Redis := ConfigRewrite.Mapping(redisSection)]);
      Regenerated(Some([a, b]), cloud, doc) == Ok(ConfigRewrite.Mapping(map[
        Discovery.Memcached := ConfigRewrite.Mapping(memcachedSection[ConfigRewrite.ServersKey :=
                                 ConfigRewrite.ServerList(["10.0.0.1:11211:1"])]),
        Discovery.Redis := ConfigRewrite.Mapping(redisSection[ConfigRewrite.ServersKey := ConfigRewrite.ServerList([])])]))
  {
    var a := Discovery.CacheCluster("a", Discovery.Memcached, Discovery.Available,
                                    [Discovery.CacheNode("0001", Discovery.Available, Discovery.Endpoint("10.0.0.1", 11211))]);
    var b := Discovery.CacheCluster("b", Discovery.Memcached, "creating", []);
    var doc := ConfigRewrite.Mapping(map[Discovery.Memcached := ConfigRewrite.Mapping(memcachedSection),
                                         Discovery.Redis := ConfigRewrite.Mapping(redisSection)]);
    Discovery.ScanExample(cloud);
    var addresses := map[Discovery.Memcached := ["10.0.0.1:11211:1"], Discovery.Redis := []];
    ConfigRewrite.UpdateReplacesOnlyServers(doc, addresses);
    var result := ConfigRewrite.UpdatedConfig(doc, Some(addresses)).value;
    assert Regenerated(Some([a, b]), cloud, doc) == Ok(result);
    var expected := map[
      Discovery.Memcached := ConfigRewrite.Mapping(memcachedSection[ConfigRewrite.ServersKey :=
                               ConfigRewrite.ServerList(["10.0.0.1:11211:1"])]),
      Discovery.Redis := ConfigRewrite.Mapping(redisSection[ConfigRewrite.ServersKey := ConfigRewrite.ServerList([])])];
    assert result.entries.Keys == expected.Keys;
    assert result.entries == expected;
  }
}
