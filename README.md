# twemproxy ElastiCache autoconfiguration, modelled in Dafny

`twemproxy/nutcracker_aws_autoconf.py` regenerates a twemproxy (nutcracker)
configuration from the live ElastiCache clusters of an AWS account. It lists the
cache clusters. It keeps the available clusters whose resource tags include
`PhhhotoTwemproxyMember` = `true`. It renders each available node of those clusters
as a `host:port:1` server entry under the cluster's engine (`memcached` or `redis`).
Then it replaces the `servers` list of both engine sections of the YAML configuration.
Without AWS credentials it writes the input configuration out unchanged.

The model has one module per part of the program:

- `Wrappers`: `Option` and `Result`.
- `Decimal`: Python's decimal rendering of an `int` (used for the port), with a parser that reads it back.
- `Identity`: the ARN of a cache cluster, the region derived from an availability zone,
  and the process-wide account-id cache as a class whose cache field is set once.
- `Discovery`: clusters, nodes, tags and endpoints as datatypes. It holds the membership
  test, the `host:port:1` entry and its parser, and the scan `CollectAddresses` (the nested
  loops with `continue` of `get_engine_addresses`). The scan is proved equal to `Discovered`,
  a declarative description: per engine, the entries of the available nodes of the
  available, tagged clusters, in cluster order and then node order, or the first error.
- `ConfigRewrite`: the loaded YAML document as a `Value` datatype. `UpdateTwemproxyConfig`
  is the loop over `memcached` and `redis`, proved equal to `UpdatedConfig`.
- `Autoconf`: one run, with the account-id cache: scan, then rewrite.

The cloud answers are inputs. The cluster listing is an `Option` (None when no credentials
are found). The tag lists are a map from resource name (ARN) to tag list, and a name
missing from it is a failed tag lookup. The identity service's account id is a string.

Behaviour of the code that the model keeps:

- The code fetches a single page of clusters and does not follow pagination.
- A configuration missing either engine section is an error, whatever the discovered lists.
- An engine other than `memcached`/`redis` is an error only when a qualifying cluster of that
  engine has an available node; the error is raised when that node's entry is appended.
- Python evaluates `addresses[engine]` before `config[engine]`. A missing discovered list is
  therefore reported before a missing section, and `memcached` is checked before `redis`.
- `resp.text[:-1]` on an empty zone gives an empty region rather than an error.

## Model

| member | source | states |
|---|---|---|
| `Decimal.NatToString` | twemproxy/nutcracker_aws_autoconf.py:51 | the rendered port is a non-empty string of decimal digits with no leading zero |
| `Decimal.IntRoundTrip` | twemproxy/nutcracker_aws_autoconf.py:51 | parsing the decimal rendering of any integer port (negative ones with a minus sign) gives back that integer |
| `Identity.ElasticacheArn` | twemproxy/nutcracker_aws_autoconf.py:31-33 | the name is `arn:aws:elasticache:`, the region, `:`, the account id, `:cluster:` and the cluster id, each field verbatim at its own position |
| `Identity.ArnDeterminesCluster` | twemproxy/nutcracker_aws_autoconf.py:31-33 | for one region and account, two ARNs are equal exactly when the cluster ids are equal, so each cluster's tags are looked up under its own name |
| `Identity.ZoneToRegion` | twemproxy/nutcracker_aws_autoconf.py:69 | the region is the zone with its last character removed; an empty zone gives an empty region |
| `Identity.ZoneToRegionRoundTrip` | twemproxy/nutcracker_aws_autoconf.py:69 | a zone made of a region and one letter trims back to that region |
| `Identity.ZoneToRegionExample` | twemproxy/nutcracker_aws_autoconf.py:69 | `us-east-1b` gives `us-east-1` |
| `Identity.AccountIdCache.constructor` | twemproxy/nutcracker_aws_autoconf.py:21-22 | the cache starts empty and the identity service has not been asked |
| `Identity.AccountIdCache.GetAccountId` | twemproxy/nutcracker_aws_autoconf.py:24-29 | the first call stores and returns the identity service's answer; every later call returns the stored id unchanged without asking again; the service is asked at most once |
| `Discovery.MembershipOf` | twemproxy/nutcracker_aws_autoconf.py:35-41 | the tags are looked up under the cluster's own ARN; a name missing from the directory is a failed lookup carrying that name; otherwise the cluster is a member exactly when its tag list holds the membership tag |
| `Discovery.HasMemberTag` | twemproxy/nutcracker_aws_autoconf.py:38-41 | true exactly when some tag has key `PhhhotoTwemproxyMember` and value `true` (exact comparison); false for an empty tag list |
| `Discovery.TwemproxyAddress` | twemproxy/nutcracker_aws_autoconf.py:49-51 | the entry is the host, `:` right after it, the decimal port, and `:1` at its end; `AddressRoundTrip` reads host and port back |
| `Discovery.AddressRoundTrip` | twemproxy/nutcracker_aws_autoconf.py:49-51 | the entry is `host:port:1` with host and port verbatim: splitting it at its last two colons gives back the endpoint, even for a host containing colons |
| `Discovery.AddressExample` | twemproxy/nutcracker_aws_autoconf.py:49-51 | host `h` and port 11211 give `h:11211:1` |
| `Discovery.CollectAddresses` | twemproxy/nutcracker_aws_autoconf.py:89-126 | the loop's result equals the declarative scan `Discovered`: the first error, or a map with exactly the keys `redis` and `memcached` |
| `Discovery.AppendNodeAddresses` | twemproxy/nutcracker_aws_autoconf.py:115-123 | over one member cluster, the entries of the available nodes are appended in node order under the engine; an engine without a list fails exactly when some node is available |
| `Discovery.GetEngineAddresses` | twemproxy/nutcracker_aws_autoconf.py:94-99 | no cluster listing (no credentials) gives no addresses; otherwise the result is the scan's result or its error |
| `Discovery.FirstErrorIff` | twemproxy/nutcracker_aws_autoconf.py:103-123 | a scan fails exactly when some cluster fails its tag lookup or needs a list for an unknown engine |
| `Discovery.NodeContribution` | twemproxy/nutcracker_aws_autoconf.py:115-123 | inside a cluster, a node adds its entry at its own place exactly when it is available, and its siblings' entries are kept around it |
| `Discovery.AvailableNodeAddressesIff` | twemproxy/nutcracker_aws_autoconf.py:115-123 | an entry is listed for a cluster exactly when some available node of that cluster has that entry |
| `Discovery.ScanFollowsClusterOrder` | twemproxy/nutcracker_aws_autoconf.py:103-123 | each engine's list for a listing `a + b` is the list for `a` followed by the list for `b` |
| `Discovery.UnavailableClusterIgnored` | twemproxy/nutcracker_aws_autoconf.py:106-108 | removing a cluster whose status is not `available` from the listing changes nothing in the scan, whatever its tags |
| `Discovery.UntaggedClusterIgnored` | twemproxy/nutcracker_aws_autoconf.py:110-112 | removing an available cluster whose tags lack the membership tag changes nothing in the scan |
| `Discovery.UnavailableTagsNotConsulted` | twemproxy/nutcracker_aws_autoconf.py:106-110 | two tag directories that agree on the available clusters give the same scan, so the tags of unavailable clusters are never asked for |
| `Discovery.EngineServersIff` | twemproxy/nutcracker_aws_autoconf.py:103-123 | an entry is in an engine's list exactly when some available, tagged cluster of that engine lists it for an available node |
| `Discovery.NoAvailableClusterScansEmpty` | twemproxy/nutcracker_aws_autoconf.py:89-108 | with no available cluster the scan succeeds with both lists empty, whatever the cloud answers |
| `Discovery.ScanExample` | twemproxy/nutcracker_aws_autoconf.py:81-126 | an available, tagged memcached cluster with node `10.0.0.1:11211` and a `creating` cluster give `{memcached: [10.0.0.1:11211:1], redis: []}` |
| `ConfigRewrite.UpdateTwemproxyConfig` | twemproxy/nutcracker_aws_autoconf.py:135-138 | the loop's result equals `UpdatedConfig`; without addresses the document is returned unchanged |
| `ConfigRewrite.UpdateReplacesOnlyServers` | twemproxy/nutcracker_aws_autoconf.py:135-138 | with addresses, the rewrite succeeds exactly when both engines have a list and a mapping section; then both `servers` fields hold the engines' entries, and every other key and field is as before |
| `ConfigRewrite.UpdateIdempotent` | twemproxy/nutcracker_aws_autoconf.py:137-138 | rewriting an already rewritten document with the same addresses changes nothing |
| `ConfigRewrite.UpdateExample` | twemproxy/nutcracker_aws_autoconf.py:137-138 | memcached servers `[old:1:1]` replaced by `[a:11211:1, b:11211:1]`, with the redis list unchanged, changes only the memcached `servers` field |
| `Autoconf.Run` | twemproxy/nutcracker_aws_autoconf.py:160-161 | a run writes `Regenerated` for the cached or freshly looked-up account; the account is looked up only if some cluster is available; without credentials the document passes through unchanged |
| `Autoconf.RunExample` | twemproxy/nutcracker_aws_autoconf.py:160-161 | end to end, the example listing puts only `10.0.0.1:11211:1` in the memcached section and empties the redis section's list |

## Left out

- boto3 sessions and clients, the STS `get_caller_identity` call, `describe_cache_clusters` and `list_tags_for_resource` are SDK network calls. Their answers are inputs: the cluster listing, the account id and the tag directory.
- Failures of the identity and cluster-listing calls other than missing credentials are not modelled; they abort the run in the source. The tag lookup failure is modelled.
- `get_session_region_client` is not modelled beyond the zone trim. The region is an input; the metadata HTTP request, `os.environ` and `NoRegionError` are I/O and environment.
- `NoCredentialsError` handling is modelled only as a cluster listing of None.
- YAML parsing and dumping and the file reads and writes are library and file I/O. The document is a `Value`, which has no floats, dates, anchors or non-string keys, and the formatting changes of re-serialisation are not modelled.
- `print`, `pprint` and the `sys.argv` usage check are diagnostics and command-line handling.
- Pagination of the cluster listing: the source does not follow it.
- Identity.AccountIdCache.GetAccountId: the identity service's answer is a string. The source caches `None` when the response has no `Account` and then asks again; that is not modelled.
- Autoconf.Run: the account id is asked for before the scan when some cluster is available. The source asks inside the first tag lookup. Nothing between the two points uses it, so the outcome is the same.
