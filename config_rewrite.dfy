/**
 * The rewrite of the proxy's configuration document: for each known engine,
 * the section's `servers` field is replaced by the discovered entries, and
 * nothing else in the document changes.
 */
module ConfigRewrite {
  import opened Wrappers
  import Discovery

  const ServersKey := "servers"

  /** The engines whose server lists are rewritten, in the order they are rewritten. */
  const Engines: seq<string> := [Discovery.Memcached, Discovery.Redis]

  /** A loaded YAML document. */
  datatype Value =
    | Null
    | Bool(b: bool)
    | Int(i: int)
    | Str(s: string)
    | List(items: seq<Value>)
    | Mapping(entries: map<string, Value>)

  /** The exceptions the rewrite raises. */
  datatype Error =
    | MissingAddresses(engine: string)    // no discovered list for the engine (a KeyError)
    | DocumentNotAMapping                 // the document cannot be indexed by engine name (a TypeError)
    | MissingSection(engine: string)      // the document has no section for the engine (a KeyError)
    | SectionNotAMapping(engine: string)  // the engine's section cannot take a `servers` field (a TypeError)

  /** The YAML list of server entries. */
  function ServerList(entries: seq<string>): Value
  {
    List(seq(|entries|, i requires 0 <= i < |entries| => Str(entries[i])))
  }

  /**
   * `config[engine]['servers'] = addresses[engine]`, with Python's order of
   * evaluation: the right-hand side first, then the section, then the store.
   */
  function SetServers(doc: Value, engine: string, addresses: Discovery.EngineAddresses): Result<Value, Error>
  {
    if engine !in addresses then Err(MissingAddresses(engine))
    else if !doc.Mapping? then Err(DocumentNotAMapping)
    else if engine !in doc.entries then Err(MissingSection(engine))
    else if !doc.entries[engine].Mapping? then Err(SectionNotAMapping(engine))
    else
      var section := doc.entries[engine].entries;
      Ok(Mapping(doc.entries[engine := Mapping(section[ServersKey := ServerList(addresses[engine])])]))
  }

  /** The engines' server lists set one after the other, stopping at the first error. */
  function Splice(doc: Value, engines: seq<string>, addresses: Discovery.EngineAddresses): Result<Value, Error>
    decreases |engines|
  {
    if engines == [] then Ok(doc)
    else
      match SetServers(doc, engines[0], addresses)
      case Err(e) => Err(e)
      case Ok(next) => Splice(next, engines[1..], addresses)
  }

  /** The document the tool writes: unchanged without addresses, spliced otherwise. */
  function UpdatedConfig(doc: Value, addresses: Option<Discovery.EngineAddresses>): Result<Value, Error>
  {
    match addresses
    case None => Ok(doc)
    case Some(a) => Splice(doc, Engines, a)
  }

  /** The update step of `update_twemproxy_config`, on the loaded document. */
  method UpdateTwemproxyConfig(doc: Value, addresses: Option<Discovery.EngineAddresses>) returns (r: Result<Value, Error>)
    ensures r == UpdatedConfig(doc, addresses)
    ensures addresses.None? ==> r == Ok(doc)
  {
    if addresses.None? {
      return Ok(doc);
    }
    var a := addresses.value;
    var config := doc;
    for k := 0 to |Engines|
      invariant Splice(config, Engines[k..], a) == Splice(doc, Engines, a)
    {
      var engine := Engines[k];
      assert Engines[k..][0] == engine && Engines[k..][1..] == Engines[k + 1..];
      if engine !in a {
        return Err(MissingAddresses(engine));
      }
      var servers := ServerList(a[engine]);
      if !config.Mapping? {
        return Err(DocumentNotAMapping);
      }
      if engine !in config.entries {
        return Err(MissingSection(engine));
      }
      var section := config.entries[engine];
      if !section.Mapping? {
        return Err(SectionNotAMapping(engine));
      }
      config := Mapping(config.entries[engine := Mapping(section.entries[ServersKey := servers])]);
    }
    assert Engines[|Engines|..] == [];
    return Ok(config);
  }

  // ----- Properties of the rewrite -----

  /** The document has a section for `engine` that can take a server list, and there is a list for it. */
  predicate Ready(doc: Value, engine: string, addresses: Discovery.EngineAddresses)
  {
    engine in addresses && doc.Mapping? && engine in doc.entries && doc.entries[engine].Mapping?
  }

  /** The section of `engine` in `doc` with its `servers` replaced by the engine's entries. */
  function ReplacedSection(doc: Value, engine: string, addresses: Discovery.EngineAddresses): Value
    requires Ready(doc, engine, addresses)
  {
    Mapping(doc.entries[engine].entries[ServersKey := ServerList(addresses[engine])])
  }

  /** Both engines' sections rewritten; every other entry of the document as it was. */
  predicate OnlyServersReplaced(doc: Value, result: Value, addresses: Discovery.EngineAddresses)
    requires Ready(doc, Discovery.Memcached, addresses) && Ready(doc, Discovery.Redis, addresses)
  {
    && result.Mapping?
    && result.entries.Keys == doc.entries.Keys
    && result.entries[Discovery.Memcached] == ReplacedSection(doc, Discovery.Memcached, addresses)
    && result.entries[Discovery.Redis] == ReplacedSection(doc, Discovery.Redis, addresses)
    && forall key :: key in doc.entries && key != Discovery.Memcached && key != Discovery.Redis ==>
         result.entries[key] == doc.entries[key]
  }

  /**
   * With addresses, the rewrite succeeds exactly when both engines are
   * ready, and then it replaces the two `servers` fields and nothing else.
   */
  lemma UpdateReplacesOnlyServers(doc: Value, addresses: Discovery.EngineAddresses)
    ensures UpdatedConfig(doc, Some(addresses)).Ok? <==>
      Ready(doc, Discovery.Memcached, addresses) && Ready(doc, Discovery.Redis, addresses)
    ensures UpdatedConfig(doc, Some(addresses)).Ok? ==>
      OnlyServersReplaced(doc, UpdatedConfig(doc, Some(addresses)).value, addresses)
  {
    var m, rd := Discovery.Memcached, Discovery.Redis;
    assert Engines[0] == m && Engines[1..] == [rd];
    assert [rd][0] == rd && [rd][1..] == [];
    assert m != rd;
    match SetServers(doc, m, addresses)
    case Err(_) =>
      assert !Ready(doc, m, addresses);
    case Ok(next) =>
      assert Ready(doc, m, addresses);
      assert next == Mapping(doc.entries[m := ReplacedSection(doc, m, addresses)]);
      assert Ready(next, rd, addresses) <==> Ready(doc, rd, addresses);
      assert Splice(doc, Engines, addresses) == Splice(next, [rd], addresses);
      assert Splice(next, [rd], addresses) == SetServers(next, rd, addresses);
  }

  /** Rewriting an already rewritten document with the same addresses changes nothing. */
  lemma UpdateIdempotent(doc: Value, addresses: Discovery.EngineAddresses)
    requires UpdatedConfig(doc, Some(addresses)).Ok?
    ensures UpdatedConfig(UpdatedConfig(doc, Some(addresses)).value, Some(addresses)) == UpdatedConfig(doc, Some(addresses))
  {
    var once := UpdatedConfig(doc, Some(addresses)).value;
    UpdateReplacesOnlyServers(doc, addresses);
    UpdateReplacesOnlyServers(once, addresses);
    var twice := UpdatedConfig(once, Some(addresses)).value;
    forall key | key in once.entries
      ensures twice.entries[key] == once.entries[key]
    {
      if key == Discovery.Memcached || key == Discovery.Redis {
        var fields := doc.entries[key].entries[ServersKey := ServerList(addresses[key])];
        assert fields[ServersKey := ServerList(addresses[key])] == fields;
      }
    }
    assert twice.entries == once.entries;
  }

  /** A new memcached list `[a:11211:1, b:11211:1]` in place of `[old:1:1]`, with the redis list kept, changes only the memcached field. */
  lemma UpdateExample()
    ensures
      var section := (servers: seq<string>) =>
        Mapping(map["listen" := Str("127.0.0.1:22121"), ServersKey := ServerList(servers)]);
      var doc := Mapping(map[Discovery.Memcached := section(["old:1:1"]), Discovery.Redis := section(["r:6379:1"])]);
      var addresses := map[Discovery.Memcached := ["a:11211:1", "b:11211:1"], Discovery.Redis := ["r:6379:1"]];
      UpdatedConfig(doc, Some(addresses))
        == Ok(Mapping(doc.entries[Discovery.Memcached := section(["a:11211:1", "b:11211:1"])]))
  {
    var section := (servers: seq<string>) =>
      Mapping(map["listen" := Str("127.0.0.1:22121"), ServersKey := ServerList(servers)]);
    var doc := Mapping(map[Discovery.Memcached := section(["old:1:1"]), Discovery.Redis := section(["r:6379:1"])]);
    var addresses := map[Discovery.Memcached := ["a:11211:1", "b:11211:1"], Discovery.Redis := ["r:6379:1"]];
    UpdateReplacesOnlyServers(doc, addresses);
    var result := UpdatedConfig(doc, Some(addresses)).value;
    var expected := Mapping(doc.entries[Discovery.Memcached := section(["a:11211:1", "b:11211:1"])]);
    assert result.entries[Discovery.Memcached] == expected.entries[Discovery.Memcached];
    assert result.entries[Discovery.Redis] == expected.entries[Discovery.Redis];
    assert result.entries == expected.entries;
  }
}
