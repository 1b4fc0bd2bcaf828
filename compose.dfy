/** The deployment manifest generator: a small configuration (client count,
    joiner count, a role -> replica-count table and per-category input file
    lists) is validated and expanded into the list of services of the
    deployment. The manifest is modelled as service records, not as YAML text. */
module Compose {
  import opened Wrappers
  import opened Text
  import Utils

  /** Roles whose replicas are told how many joiner shards exist. */
  const NEEDS_SHARDS: set<string> := {"preprocessor", "production-filter"}
  /** Queries 2..QUERY_AMNT each get a final reducer. */
  const QUERY_AMNT: nat := 5
  /** Keys a configuration must have, in the order they are checked. */
  const KEYS: seq<string> := ["clients", "joiners", "nodes", "files"]

  datatype EnvVar = EnvVar(key: string, value: string)

  /** How a service's container is obtained. */
  datatype Image =
    | ServerBuild(node: string)   // ./server/Dockerfile with build argument NODE
    | BrokerImage                 // rabbitmq:3-management
    | ClientBuild                 // ./client/Dockerfile

  /** One service of the manifest; its container is named after the service. */
  datatype Service = Service(name: string, image: Image, env: seq<EnvVar>, dependsOn: Option<string>)

  /** A file-list entry of the configuration, as decoded from JSON. */
  datatype FileEntry = FileList(paths: seq<string>) | NotAList

  /** The configuration object json.load returns, for a well-typed document:
      the counts are integers and "nodes" and "files" are objects; a key that
      is absent is `None`. The "nodes" and "files" objects are Python dicts:
      (key, value) pairs in insertion order, each key once (DictOf builds
      them). */
  datatype RawConfig = RawConfig(
    clients: Option<int>,
    joiners: Option<int>,
    nodes: Option<Dict<int>>,
    files: Option<Dict<FileEntry>>)

  // ----- JSON objects as Python dicts -----

  /** No key occurs twice. */
  predicate KeysDistinct<V>(pairs: seq<(string, V)>)
  {
    forall i, j :: 0 <= i < j < |pairs| ==> pairs[i].0 != pairs[j].0
  }

  /** A Python dict: its entries in insertion order, each key once. */
  type Dict<V> = pairs: seq<(string, V)> | KeysDistinct(pairs) witness []

  /** The value of the first entry with the given key, if any. */
  function Lookup<V>(pairs: seq<(string, V)>, key: string): (r: Option<V>)
    ensures r.Some? <==> exists k :: 0 <= k < |pairs| && pairs[k].0 == key
    ensures r.Some? ==> exists k :: 0 <= k < |pairs| && pairs[k] == (key, r.value)
    ensures KeysDistinct(pairs) ==> forall k :: 0 <= k < |pairs| && pairs[k].0 == key ==> r == Some(pairs[k].1)
  {
    if pairs == [] then None
    else if pairs[0].0 == key then Some(pairs[0].1)
    else
      var r := Lookup(pairs[1..], key);
      assert r.Some? ==> exists k :: 0 <= k < |pairs[1..]| && pairs[1..][k] == (key, r.value);
      assert KeysDistinct(pairs) ==> KeysDistinct(pairs[1..]);
      r
  }

  /** Python's `d[key] = value`: a key already present keeps its position and
      takes the new value; a new key goes at the end. */
  function Store<V>(d: seq<(string, V)>, key: string, value: V): (r: seq<(string, V)>)
    ensures Lookup(r, key) == Some(value)
    ensures forall k :: k != key ==> Lookup(r, k) == Lookup(d, k)
  {
    if d == [] then [(key, value)]
    else if d[0].0 == key then
      LookupCons((key, value), d[1..]);
      [(key, value)] + d[1..]
    else
      var rest := Store(d[1..], key, value);
      LookupCons(d[0], rest);
      LookupCons(d[0], d[1..]);
      [d[0]] + rest
  }

  /** Looking up in a sequence with one more entry in front. */
  lemma LookupCons<V>(entry: (string, V), pairs: seq<(string, V)>)
    ensures forall key :: Lookup([entry] + pairs, key) == if entry.0 == key then Some(entry.1) else Lookup(pairs, key)
  {
    assert ([entry] + pairs)[1..] == pairs;
  }

  /** Where the entry goes: a new key at the end, an existing one in place. */
  lemma {:induction false} StoreShape<V>(d: seq<(string, V)>, key: string, value: V)
    ensures Lookup(d, key).None? ==> Store(d, key, value) == d + [(key, value)]
    ensures Lookup(d, key).Some? ==>
              && |Store(d, key, value)| == |d|
              && forall i :: 0 <= i < |d| ==> Store(d, key, value)[i].0 == d[i].0
  {
    if d != [] && d[0].0 != key {
      StoreShape(d[1..], key, value);
      LookupCons(d[0], d[1..]);
      assert [d[0]] + d[1..] == d;
    }
  }

  /** Storing into a dict gives a dict. */
  lemma StoreKeepsDistinct<V>(d: seq<(string, V)>, key: string, value: V)
    requires KeysDistinct(d)
    ensures KeysDistinct(Store(d, key, value))
  {
    StoreShape(d, key, value);
  }

  /** The object json.load builds from the (key, value) pairs of a JSON object
      in document order: each pair is stored in turn, so a repeated key keeps
      its first position and its last value. */
  function DictOf<V>(pairs: seq<(string, V)>): Dict<V>
  {
    if pairs == [] then []
    else
      var d := DictOf(pairs[..|pairs| - 1]);
      StoreKeepsDistinct(d, pairs[|pairs| - 1].0, pairs[|pairs| - 1].1);
      Store(d, pairs[|pairs| - 1].0, pairs[|pairs| - 1].1)
  }

  /** The value of the last pair with the given key, if any. */
  function LastValue<V>(pairs: seq<(string, V)>, key: string): Option<V>
  {
    if pairs == [] then None
    else if pairs[|pairs| - 1].0 == key then Some(pairs[|pairs| - 1].1)
    else LastValue(pairs[..|pairs| - 1], key)
  }

  /** In the decoded object every key of the document maps to its last value,
      and no other key is present. */
  lemma {:induction false} DictOfLastWins<V>(pairs: seq<(string, V)>, key: string)
    ensures Lookup(DictOf(pairs), key) == LastValue(pairs, key)
  {
    if pairs != [] {
      DictOfLastWins(pairs[..|pairs| - 1], key);
    }
  }

  /** A document that repeats no key decodes to its own pairs, in order. */
  lemma {:induction false} DictOfDistinct<V>(pairs: seq<(string, V)>)
    requires KeysDistinct(pairs)
    ensures DictOf(pairs) == pairs
  {
    if pairs != [] {
      var init, last := pairs[..|pairs| - 1], pairs[|pairs| - 1];
      LastKeyIsNew(pairs);
      DictOfDistinct(init);
      StoreShape(init, last.0, last.1);
      assert init + [last] == pairs;
    }
  }

  /** In a sequence without repeated keys, the last key does not occur before it. */
  lemma LastKeyIsNew<V>(pairs: seq<(string, V)>)
    requires pairs != [] && KeysDistinct(pairs)
    ensures KeysDistinct(pairs[..|pairs| - 1])
    ensures Lookup(pairs[..|pairs| - 1], pairs[|pairs| - 1].0).None?
  {
    var init := pairs[..|pairs| - 1];
    forall k | 0 <= k < |init|
      ensures init[k].0 != pairs[|pairs| - 1].0
    {
      assert init[k] == pairs[k];
    }
  }

  /** A category listed twice is read with its second list only: an empty
      first list is not seen by validation. */
  lemma RepeatedCategoryLastWins()
    ensures DictOf([("movies", FileList([])), ("movies", FileList(["m.csv"]))])
            == [("movies", FileList(["m.csv"]))]
  {
    var pairs := [("movies", FileList([])), ("movies", FileList(["m.csv"]))];
    assert pairs[..1] == [("movies", FileList([]))];
    assert pairs[..1][..0] == [];
  }

  /** A configuration that passed validation. */
  datatype Config = Config(
    clients: int,
    joiners: int,
    nodes: seq<(string, int)>,
    files: seq<(string, seq<string>)>)
  {
    predicate Valid()
    {
      forall k :: 0 <= k < |files| ==> files[k].1 != []
    }
  }

  datatype ConfigError =
    | MissingKey(key: string)
    | NotAFileList(category: string)
    | EmptyList(category: string)
    | MissingCategory(category: string)   // KeyError while assigning client files

  // ----- Validation -----

  predicate Present(raw: RawConfig, key: string)
  {
    match key
    case "clients" => raw.clients.Some?
    case "joiners" => raw.joiners.Some?
    case "nodes" => raw.nodes.Some?
    case "files" => raw.files.Some?
    case _ => false
  }

  predicate GoodEntry(e: FileEntry)
  {
    e.FileList? && e.paths != []
  }

  predicate AllPresent(raw: RawConfig)
  {
    raw.clients.Some? && raw.joiners.Some? && raw.nodes.Some? && raw.files.Some?
  }

  /** A configuration that passes validation: every key present and every
      file entry a non-empty list. */
  predicate WellFormed(raw: RawConfig)
  {
    AllPresent(raw) && forall k :: 0 <= k < |raw.files.value| ==> GoodEntry(raw.files.value[k].1)
  }

  /** The configuration a well-formed raw one denotes: its file entries
      reduced to their path lists, in document order. */
  function ConfigOf(raw: RawConfig): Config
    requires WellFormed(raw)
  {
    var entries := raw.files.value;
    Config(raw.clients.value, raw.joiners.value, raw.nodes.value,
           seq(|entries|, k requires 0 <= k < |entries| => (entries[k].0, entries[k].1.paths)))
  }

  /** The checks made before anything is generated: every key present, in the
      order of KEYS, then every file entry a non-empty list, in document order. */
  method Validate(raw: RawConfig) returns (r: Result<Config, ConfigError>)
    ensures r.Ok? <==>
      && AllPresent(raw)
      && (forall k :: 0 <= k < |raw.files.value| ==> GoodEntry(raw.files.value[k].1))
    ensures r.Ok? ==>
      && AllPresent(raw)
      && r.value.Valid()
      && r.value.clients == raw.clients.value && r.value.joiners == raw.joiners.value
      && r.value.nodes == raw.nodes.value
      && |r.value.files| == |raw.files.value|
      && (forall k :: 0 <= k < |r.value.files| ==>
            r.value.files[k] == (raw.files.value[k].0, raw.files.value[k].1.paths))
    ensures r.Ok? ==> WellFormed(raw) && r.value == ConfigOf(raw)
    ensures r.Ok? ==> KeysDistinct(r.value.nodes) && KeysDistinct(r.value.files)
    ensures r.Err? && r.error.MissingKey? ==>
      exists i ::
        && 0 <= i < |KEYS| && r.error.key == KEYS[i] && !Present(raw, KEYS[i])
        && (forall j :: 0 <= j < i ==> Present(raw, KEYS[j]))
    ensures r.Err? && !r.error.MissingKey? ==>
      && AllPresent(raw)
      && (r.error.EmptyList? || r.error.NotAFileList?)
      && exists k ::
        && 0 <= k < |raw.files.value| && r.error.category == raw.files.value[k].0
        && !GoodEntry(raw.files.value[k].1)
        && (raw.files.value[k].1.NotAList? <==> r.error.NotAFileList?)
        && (forall j :: 0 <= j < k ==> GoodEntry(raw.files.value[j].1))
  {
    var i := 0;
    while i < |KEYS|
      invariant 0 <= i <= |KEYS|
      invariant forall j :: 0 <= j < i ==> Present(raw, KEYS[j])
    {
      if !Present(raw, KEYS[i]) {
        return Err(MissingKey(KEYS[i]));
      }
      i := i + 1;
    }
    assert Present(raw, KEYS[0]) && Present(raw, KEYS[1]) && Present(raw, KEYS[2]) && Present(raw, KEYS[3]);
    var entries := raw.files.value;
    var files: seq<(string, seq<string>)> := [];
    var k := 0;
    while k < |entries|
      invariant 0 <= k <= |entries|
      invariant |files| == k
      invariant forall j :: 0 <= j < k ==> GoodEntry(entries[j].1)
      invariant forall j :: 0 <= j < k ==> files[j] == (entries[j].0, entries[j].1.paths)
    {
      var (category, entry) := entries[k];
      if entry.NotAList? {
        return Err(NotAFileList(category));
      }
      if entry.paths == [] {
        return Err(EmptyList(category));
      }
      files := files + [(category, entry.paths)];
      k := k + 1;
    }
    r := Ok(Config(raw.clients.value, raw.joiners.value, raw.nodes.value, files));
  }

  // ----- Service templates -----

  /** The broker credentials every server node and the broker itself carry. */
  function BaseEnv(): seq<EnvVar>
  {
    [EnvVar("RABBITMQ_DEFAULT_USER", "monke"), EnvVar("RABBITMQ_DEFAULT_PASS", "joaco1")]
  }

  /** Python's rendering of an optional integer argument: `None` or the number. */
  function Show(x: Option<int>): string
  {
    if x.None? then "None" else IntToString(x.value)
  }

  /** The extra environment of a server node, by role. */
  function NodeEnv(role: string, nodeId: Option<int>, joiners: Option<int>): seq<EnvVar>
  {
    if role == "final-reducer" then
      [EnvVar("QUERY_NUM", Show(nodeId)), EnvVar("JOINER_SHARDS", Show(joiners))]
    else if role == "joiner" then
      [EnvVar("JOINER_ID", Show(nodeId))]
    else if role in NEEDS_SHARDS then
      [EnvVar("JOINER_SHARDS", Show(joiners))]
    else
      []
  }

  /** The value of the first variable named `key`, if any. */
  function EnvValue(env: seq<EnvVar>, key: string): (r: Option<string>)
    ensures r.Some? <==> exists k :: 0 <= k < |env| && env[k].key == key
    ensures r.Some? ==> EnvVar(key, r.value) in env
  {
    if env == [] then None
    else if env[0].key == key then Some(env[0].value)
    else EnvValue(env[1..], key)
  }

  /** Which variables a role gets: JOINER_SHARDS exactly for the final reducer
      and the fan-out roles, JOINER_ID exactly for joiners, QUERY_NUM exactly for
      final reducers, and for any other role nothing beyond the broker credentials. */
  lemma NodeEnvKeys(role: string, nodeId: Option<int>, joiners: Option<int>)
    ensures EnvValue(NodeEnv(role, nodeId, joiners), "JOINER_SHARDS").Some?
      <==> role == "final-reducer" || role in NEEDS_SHARDS
    ensures EnvValue(NodeEnv(role, nodeId, joiners), "JOINER_SHARDS").Some? ==>
      EnvValue(NodeEnv(role, nodeId, joiners), "JOINER_SHARDS") == Some(Show(joiners))
    ensures EnvValue(NodeEnv(role, nodeId, joiners), "JOINER_ID").Some? <==> role == "joiner"
    ensures EnvValue(NodeEnv(role, nodeId, joiners), "JOINER_ID").Some? ==>
      EnvValue(NodeEnv(role, nodeId, joiners), "JOINER_ID") == Some(Show(nodeId))
    ensures EnvValue(NodeEnv(role, nodeId, joiners), "QUERY_NUM").Some? <==> role == "final-reducer"
    ensures EnvValue(NodeEnv(role, nodeId, joiners), "QUERY_NUM").Some? ==>
      EnvValue(NodeEnv(role, nodeId, joiners), "QUERY_NUM") == Some(Show(nodeId))
    ensures role != "final-reducer" && role != "joiner" && role !in NEEDS_SHARDS ==>
      NodeEnv(role, nodeId, joiners) == []
  {
    var env := NodeEnv(role, nodeId, joiners);
    if role == "final-reducer" {
      assert env[1..][0].key == "JOINER_SHARDS";
    }
  }

  function NodeService(name: string, role: string, extra: seq<EnvVar>): Service
  {
    Service(name, ServerBuild(role), BaseEnv() + extra, Some("rabbitmq"))
  }

  function Gateway(): Service
  {
    NodeService("gateway", "gateway", [])
  }

  function Broker(): Service
  {
    Service("rabbitmq", BrokerImage, BaseEnv(), None)
  }

  /** Python's `range(1, n + 1)` has this many elements. */
  function Count(n: int): nat
  {
    if n < 0 then 0 else n
  }

  function ReplicaName(role: string, count: int, i: nat): string
  {
    if count > 1 then role + "-" + NatToString(i) else role
  }

  /** The services of one entry of the role table: replica i (1-based) is
      element i - 1. */
  function Replicas(role: string, count: int, joiners: int): (r: seq<Service>)
    ensures |r| == Count(count)
  {
    seq(Count(count), i requires 0 <= i < Count(count) =>
      NodeService(ReplicaName(role, count, i + 1), role, NodeEnv(role, None, Some(joiners))))
  }

  function TotalReplicas(nodes: seq<(string, int)>): nat
  {
    if nodes == [] then 0 else TotalReplicas(nodes[..|nodes| - 1]) + Count(nodes[|nodes| - 1].1)
  }

  /** The services of the whole role table, table entry by table entry. */
  function NodeServices(nodes: seq<(string, int)>, joiners: int): (r: seq<Service>)
    ensures |r| == TotalReplicas(nodes)
  {
    if nodes == [] then []
    else
      var last := nodes[|nodes| - 1];
      NodeServices(nodes[..|nodes| - 1], joiners) + Replicas(last.0, last.1, joiners)
  }

  function FinalReducerName(q: nat): string
  {
    "final-reducer-q" + NatToString(q)
  }

  /** One final reducer per query 2..QUERY_AMNT. */
  function FinalReducers(joiners: int): (r: seq<Service>)
    ensures |r| == QUERY_AMNT - 1
  {
    seq(QUERY_AMNT - 1, k requires 0 <= k < QUERY_AMNT - 1 =>
      NodeService(FinalReducerName(k + 2), "final-reducer", NodeEnv("final-reducer", Some(k + 2), Some(joiners))))
  }

  function JoinerName(j: nat): string
  {
    "joiner-" + NatToString(j)
  }

  function Joiners(joiners: int): (r: seq<Service>)
    ensures |r| == Count(joiners)
  {
    seq(Count(joiners), k requires 0 <= k < Count(joiners) =>
      NodeService(JoinerName(k + 1), "joiner", NodeEnv("joiner", Some(k + 1), None)))
  }

  function ClientName(c: nat): string
  {
    "client" + NatToString(c)
  }

  function ClientService(c: nat, movies: string, reviews: string, credits: string): Service
  {
    Service(ClientName(c), ClientBuild,
      [EnvVar("CLI_ID", NatToString(c)), EnvVar("MOVIES_FILE", movies),
       EnvVar("REVIEWS_FILE", reviews), EnvVar("CREDITS_FILE", credits)],
      Some("gateway"))
  }

  /** The file list of a category in a validated configuration: never empty. */
  function CategoryFiles(cfg: Config, category: string): (r: Option<seq<string>>)
    requires cfg.Valid()
    ensures r == Lookup(cfg.files, category)
    ensures r.Some? ==> r.value != []
  {
    Lookup(cfg.files, category)
  }

  /** The file given to client c (1-based) from a non-empty list: the list is cycled. */
  function Pick(list: seq<string>, c: nat): string
    requires list != [] && c >= 1
  {
    list[(c - 1) % |list|]
  }

  /** Clients 1..clients with their files picked from the three lists. */
  function ClientList(clients: nat, movies: seq<string>, reviews: seq<string>, credits: seq<string>): (r: seq<Service>)
    requires movies != [] && reviews != [] && credits != []
    ensures |r| == clients
  {
    seq(clients, k requires 0 <= k < clients =>
      ClientService(k + 1, Pick(movies, k + 1), Pick(reviews, k + 1), Pick(credits, k + 1)))
  }

  /** The client services, or the first file category found missing. */
  function Clients(clients: int, cfg: Config): Result<seq<Service>, ConfigError>
    requires cfg.Valid()
  {
    if clients < 1 then Ok([])
    else
      var m := CategoryFiles(cfg, "movies");
      var v := CategoryFiles(cfg, "reviews");
      var c := CategoryFiles(cfg, "credits");
      if m.None? then Err(MissingCategory("movies"))
      else if v.None? then Err(MissingCategory("reviews"))
      else if c.None? then Err(MissingCategory("credits"))
      else Ok(ClientList(clients, m.value, v.value, c.value))
  }

  /** The fixed part of the manifest, before the clients. */
  function Servers(cfg: Config): seq<Service>
  {
    [Gateway(), Broker()] + NodeServices(cfg.nodes, cfg.joiners) + FinalReducers(cfg.joiners) + Joiners(cfg.joiners)
  }

  /** The whole manifest, in emission order. */
  function Manifest(cfg: Config): Result<seq<Service>, ConfigError>
    requires cfg.Valid()
  {
    match Clients(cfg.clients, cfg)
    case Ok(cs) => Ok(Servers(cfg) + cs)
    case Err(e) => Err(e)
  }

  // ----- The generator -----

  /** The generator proper: the services are emitted in the order of the
      manifest, section by section. */
  method CreateCompose(cfg: Config) returns (r: Result<seq<Service>, ConfigError>)
    requires cfg.Valid()
    ensures r == Manifest(cfg)
  {
    var services := [Gateway(), Broker()];
    services := EmitNodes(services, cfg.nodes, cfg.joiners);
    services := EmitFinalReducers(services, cfg.joiners);
    services := EmitJoiners(services, cfg.joiners);
    assert services == Servers(cfg);
    r := EmitClients(services, cfg);
  }

  /** The services of the role table, appended table entry by table entry. */
  method EmitNodes(before: seq<Service>, nodes: seq<(string, int)>, joiners: int) returns (services: seq<Service>)
    ensures services == before + NodeServices(nodes, joiners)
  {
    services := before;
    var k := 0;
    while k < |nodes|
      invariant 0 <= k <= |nodes|
      invariant services == before + NodeServices(nodes[..k], joiners)
    {
      var (role, count) := nodes[k];
      services := EmitReplicas(services, role, count, joiners);
      assert nodes[..k + 1][..k] == nodes[..k];
      k := k + 1;
    }
    assert nodes[..k] == nodes;
  }

  /** The replicas of one role, named `role` alone or `role-1`..`role-count`. */
  method EmitReplicas(before: seq<Service>, role: string, count: int, joiners: int) returns (services: seq<Service>)
    ensures services == before + Replicas(role, count, joiners)
  {
    services := before;
    ghost var all := Replicas(role, count, joiners);
    var i := 1;
    while i <= count
      invariant 1 <= i <= Count(count) + 1
      invariant services == before + all[..i - 1]
    {
      var extra := NodeEnv(role, None, Some(joiners));
      var replica := NodeService(ReplicaName(role, count, i), role, extra);
      assert all[i - 1] == replica;
      assert all[..i] == all[..i - 1] + [replica];
      Utils.AppendAssoc(before, all[..i - 1], [replica]);
      services := services + [replica];
      i := i + 1;
    }
    assert all[..i - 1] == all;
  }

  method EmitFinalReducers(before: seq<Service>, joiners: int) returns (services: seq<Service>)
    ensures services == before + FinalReducers(joiners)
  {
    services := before;
    ghost var all := FinalReducers(joiners);
    var q := 2;
    while q <= QUERY_AMNT
      invariant 2 <= q <= QUERY_AMNT + 1
      invariant services == before + all[..q - 2]
    {
      var extra := NodeEnv("final-reducer", Some(q), Some(joiners));
      var reducer := NodeService(FinalReducerName(q), "final-reducer", extra);
      assert all[q - 2] == reducer;
      assert all[..q - 1] == all[..q - 2] + [reducer];
      Utils.AppendAssoc(before, all[..q - 2], [reducer]);
      services := services + [reducer];
      q := q + 1;
    }
    assert all[..q - 2] == all;
  }

  method EmitJoiners(before: seq<Service>, joiners: int) returns (services: seq<Service>)
    ensures services == before + Joiners(joiners)
  {
    services := before;
    ghost var all := Joiners(joiners);
    var j := 1;
    while j <= joiners
      invariant 1 <= j <= Count(joiners) + 1
      invariant services == before + all[..j - 1]
    {
      var extra := NodeEnv("joiner", Some(j), None);
      var joiner := NodeService(JoinerName(j), "joiner", extra);
      assert all[j - 1] == joiner;
      assert all[..j] == all[..j - 1] + [joiner];
      Utils.AppendAssoc(before, all[..j - 1], [joiner]);
      services := services + [joiner];
      j := j + 1;
    }
    assert all[..j - 1] == all;
  }

  /** The clients; the file categories are looked up for every client, so a
      missing one fails at the first client. */
  method EmitClients(before: seq<Service>, cfg: Config) returns (r: Result<seq<Service>, ConfigError>)
    requires cfg.Valid()
    ensures r == match Clients(cfg.clients, cfg)
      case Ok(cs) => Ok(before + cs)
      case Err(e) => Err(e)
  {
    var services := before;
    var c := 1;
    while c <= cfg.clients
      invariant 1 <= c <= Count(cfg.clients) + 1
      invariant c > 1 ==> Clients(cfg.clients, cfg).Ok?
      invariant c > 1 ==> services == before + Clients(cfg.clients, cfg).value[..c - 1]
      invariant c == 1 ==> services == before
    {
      var movies := CategoryFiles(cfg, "movies");
      if movies.None? {
        return Err(MissingCategory("movies"));
      }
      var reviews := CategoryFiles(cfg, "reviews");
      if reviews.None? {
        return Err(MissingCategory("reviews"));
      }
      var credits := CategoryFiles(cfg, "credits");
      if credits.None? {
        return Err(MissingCategory("credits"));
      }
      ghost var all := Clients(cfg.clients, cfg).value;
      var client := ClientService(c, Pick(movies.value, c), Pick(reviews.value, c), Pick(credits.value, c));
      assert all[c - 1] == client;
      assert all[..c] == all[..c - 1] + [client];
      Utils.AppendAssoc(before, all[..c - 1], [client]);
      services := services + [client];
      c := c + 1;
    }
    if c > 1 {
      assert Clients(cfg.clients, cfg).value[..c - 1] == Clients(cfg.clients, cfg).value;
    } else {
      assert before + [] == before;
    }
    r := Ok(services);
  }

  /** The generator entry point: validate, then expand. A missing key is
      reported first, in the order of KEYS; then the first file entry that is
      not a list or is empty; a well-formed configuration gives the manifest
      of the configuration it denotes. */
  method Run(raw: RawConfig) returns (r: Result<seq<Service>, ConfigError>)
    ensures r.Err? && r.error.MissingKey? <==> !AllPresent(raw)
    ensures r.Err? && r.error.MissingKey? ==>
      exists i ::
        && 0 <= i < |KEYS| && r.error.key == KEYS[i] && !Present(raw, KEYS[i])
        && (forall j :: 0 <= j < i ==> Present(raw, KEYS[j]))
    ensures AllPresent(raw) && !WellFormed(raw) ==>
      && r.Err? && (r.error.EmptyList? || r.error.NotAFileList?)
      && exists k ::
        && 0 <= k < |raw.files.value| && r.error.category == raw.files.value[k].0
        && !GoodEntry(raw.files.value[k].1)
        && (raw.files.value[k].1.NotAList? <==> r.error.NotAFileList?)
        && (forall j :: 0 <= j < k ==> GoodEntry(raw.files.value[j].1))
    ensures WellFormed(raw) ==> ConfigOf(raw).Valid() && r == Manifest(ConfigOf(raw))
  {
    var validated := Validate(raw);
    if validated.Err? {
      return Err(validated.error);
    }
    r := CreateCompose(validated.value);
  }
}
