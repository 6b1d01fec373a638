/**
 * Who and where the tool runs as: the account-id cache, the resource name
 * (ARN) of a cache cluster, and the region derived from an availability zone.
 */
module Identity {
  import opened Wrappers

  const ArnPrefix := "arn:aws:elasticache:"

  /** `arn:aws:elasticache:<region>:<account>:cluster:<cluster id>` */
  function ElasticacheArn(region: string, account: string, clusterId: string): (arn: string)
    ensures var regionEnd := |ArnPrefix| + |region|;
            var accountEnd := regionEnd + 1 + |account|;
            && |arn| == accountEnd + |":cluster:"| + |clusterId|
            && arn[..|ArnPrefix|] == ArnPrefix
            && arn[|ArnPrefix|..regionEnd] == region
            && arn[regionEnd] == ':'
            && arn[regionEnd + 1..accountEnd] == account
            && arn[accountEnd..accountEnd + |":cluster:"|] == ":cluster:"
            && arn[accountEnd + |":cluster:"|..] == clusterId
  {
    ArnPrefix + region + ":" + account + ":cluster:" + clusterId
  }

  /** Two clusters of the same account and region never share a resource name, so each has its own tags. */
  lemma ArnDeterminesCluster(region: string, account: string, id1: string, id2: string)
    ensures ElasticacheArn(region, account, id1) == ElasticacheArn(region, account, id2) <==> id1 == id2
  {
    var head := ArnPrefix + region + ":" + account + ":cluster:";
    assert ElasticacheArn(region, account, id1) == head + id1;
    assert ElasticacheArn(region, account, id2) == head + id2;
    if head + id1 == head + id2 {
      assert id1 == (head + id1)[|head|..];
      assert id2 == (head + id2)[|head|..];
    }
  }

  /**
   * The region of an availability zone: the zone's name without its last
   * character. Like a Python slice `[:-1]`, an empty zone gives an empty region.
   */
  function ZoneToRegion(zone: string): (region: string)
    ensures |zone| > 0 ==> zone == region + [zone[|zone| - 1]]
    ensures |zone| == 0 ==> region == ""
  {
    if |zone| == 0 then "" else zone[..|zone| - 1]
  }

  /** A zone is its region followed by one letter, so trimming recovers the region. */
  lemma ZoneToRegionRoundTrip(region: string, letter: char)
    ensures ZoneToRegion(region + [letter]) == region
  {
  }

  lemma ZoneToRegionExample()
    ensures ZoneToRegion("us-east-1b") == "us-east-1"
  {
  }

  /**
   * The process-wide account-id cache. It starts empty; the first request
   * stores what the identity service answers, every later request returns
   * the stored value without asking again.
   */
  class AccountIdCache {
    var cached: Option<string>
    /** How many times the identity service has been asked. */
    ghost var lookups: nat

    ghost predicate Valid()
      reads this
    {
      lookups <= 1 && (cached.None? <==> lookups == 0)
    }

    constructor ()
      ensures Valid() && cached == None && lookups == 0
    {
      cached := None;
      lookups := 0;
    }

    /**
     * `callerAccount` is what the identity service would answer if it were
     * asked now; it is used only when nothing is cached yet.
     */
    method GetAccountId(callerAccount: string) returns (account: string)
      requires Valid()
      modifies this
      ensures Valid()
      ensures old(cached).Some? ==> account == old(cached).value && cached == old(cached) && lookups == old(lookups)
      ensures old(cached).None? ==> account == callerAccount && cached == Some(callerAccount) && lookups == 1
    {
      if cached.None? {
        cached := Some(callerAccount);
        lookups := lookups + 1;
      }
      account := cached.value;
    }
  }
}
