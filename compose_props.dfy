/** What the generated manifest looks like: names, environment wiring, the
    cyclic file assignment and the emission order. */
module ComposeProperties {
  import opened Wrappers
  import opened Text
  import opened Compose

  lemma AppendDiffers(p: string, a: string, b: string)
    requires a != b
    ensures p + a != p + b
  {
    assert (p + a)[|p|..] == a;
    assert (p + b)[|p|..] == b;
  }

  /** Distinct ordinals give distinct names under a common prefix. */
  lemma OrdinalNamesDistinct(p: string, i: nat, j: nat)
    requires i != j
    ensures p + NatToString(i) != p + NatToString(j)
  {
    NatToStringInjective(i, j);
    AppendDiffers(p, NatToString(i), NatToString(j));
  }

  /** Looking a variable up past the broker credentials. */
  lemma EnvValueAfterBase(extra: seq<EnvVar>, key: string)
    requires key != "RABBITMQ_DEFAULT_USER" && key != "RABBITMQ_DEFAULT_PASS"
    ensures EnvValue(BaseEnv() + extra, key) == EnvValue(extra, key)
  {
    var env := BaseEnv() + extra;
    assert env[1..][1..] == extra;
  }

  /** A role with count 1 yields one service named after the role; a count
      n > 1 yields `role-1`..`role-n` and never the bare role; a count of 0 or
      less yields nothing. Names within the role are pairwise distinct. */
  lemma ReplicaNaming(role: string, count: int, joiners: int)
    ensures count <= 0 ==> Replicas(role, count, joiners) == []
    ensures count == 1 ==> |Replicas(role, count, joiners)| == 1 && Replicas(role, count, joiners)[0].name == role
    ensures count > 1 ==> |Replicas(role, count, joiners)| == count
    ensures count > 1 ==> forall i :: 1 <= i <= count ==>
      Replicas(role, count, joiners)[i - 1].name == role + "-" + NatToString(i)
    ensures count > 1 ==> forall k :: 0 <= k < |Replicas(role, count, joiners)| ==>
      Replicas(role, count, joiners)[k].name != role
    ensures forall k, l :: 0 <= k < l < |Replicas(role, count, joiners)| ==>
      Replicas(role, count, joiners)[k].name != Replicas(role, count, joiners)[l].name
    ensures forall k :: 0 <= k < |Replicas(role, count, joiners)| ==>
      Replicas(role, count, joiners)[k].image == ServerBuild(role)
      && Replicas(role, count, joiners)[k].dependsOn == Some("rabbitmq")
  {
    forall k, l | 0 <= k < l < |Replicas(role, count, joiners)|
      ensures Replicas(role, count, joiners)[k].name != Replicas(role, count, joiners)[l].name
    {
      ReplicaNamesDiffer(role, count, joiners, k, l);
    }
    forall k | 0 <= k < |Replicas(role, count, joiners)| && count > 1
      ensures Replicas(role, count, joiners)[k].name != role
    {
      ReplicaNameAt(role, count, joiners, k);
      assert |ReplicaName(role, count, k + 1)| > |role|;
    }
  }

  lemma ReplicaNameAt(role: string, count: int, joiners: int, k: nat)
    requires k < Count(count)
    ensures Replicas(role, count, joiners)[k].name == ReplicaName(role, count, k + 1)
  {
  }

  lemma ReplicaNamesDiffer(role: string, count: int, joiners: int, k: nat, l: nat)
    requires k < l < Count(count)
    ensures Replicas(role, count, joiners)[k].name != Replicas(role, count, joiners)[l].name
  {
    ReplicaNameAt(role, count, joiners, k);
    ReplicaNameAt(role, count, joiners, l);
    OrdinalNamesDistinct(role + "-", k + 1, l + 1);
    assert ReplicaName(role, count, k + 1) == (role + "-") + NatToString(k + 1);
    assert ReplicaName(role, count, l + 1) == (role + "-") + NatToString(l + 1);
  }

  /** Every replica of a fan-out role carries the joiner count; replicas of a
      role other than the fan-out roles, `joiner` and `final-reducer` carry only
      the broker credentials. */
  lemma ReplicaEnv(role: string, count: int, joiners: int)
    ensures role in NEEDS_SHARDS ==> forall k :: 0 <= k < |Replicas(role, count, joiners)| ==>
      EnvValue(Replicas(role, count, joiners)[k].env, "JOINER_SHARDS") == Some(IntToString(joiners))
    ensures role !in NEEDS_SHARDS && role != "joiner" && role != "final-reducer" ==>
      forall k :: 0 <= k < |Replicas(role, count, joiners)| ==> Replicas(role, count, joiners)[k].env == BaseEnv()
  {
    var extra := NodeEnv(role, None, Some(joiners));
    NodeEnvKeys(role, None, Some(joiners));
    EnvValueAfterBase(extra, "JOINER_SHARDS");
    assert BaseEnv() + [] == BaseEnv();
  }

  /** The gateway carries only the broker credentials; the broker depends on nothing. */
  lemma FixedServices()
    ensures Gateway().name == "gateway" && Gateway().env == BaseEnv() && Gateway().dependsOn == Some("rabbitmq")
    ensures Broker().name == "rabbitmq" && Broker().dependsOn.None?
  {
    assert BaseEnv() + [] == BaseEnv();
  }

  /** Final reducer q (2 <= q <= 5) is `final-reducer-q<q>` with QUERY_NUM = q
      and JOINER_SHARDS = the joiner count. */
  lemma FinalReducerAt(joiners: int, q: nat)
    requires 2 <= q <= QUERY_AMNT
    ensures FinalReducers(joiners)[q - 2].name == "final-reducer-q" + NatToString(q)
    ensures FinalReducers(joiners)[q - 2].image == ServerBuild("final-reducer")
    ensures EnvValue(FinalReducers(joiners)[q - 2].env, "QUERY_NUM") == Some(NatToString(q))
    ensures EnvValue(FinalReducers(joiners)[q - 2].env, "JOINER_SHARDS") == Some(IntToString(joiners))
  {
    var extra := NodeEnv("final-reducer", Some(q), Some(joiners));
    assert FinalReducers(joiners)[q - 2] == NodeService(FinalReducerName(q), "final-reducer", extra);
    NodeEnvKeys("final-reducer", Some(q), Some(joiners));
    EnvValueAfterBase(extra, "QUERY_NUM");
    EnvValueAfterBase(extra, "JOINER_SHARDS");
  }

  /** Exactly one final reducer per query 2..5: the four names are pairwise distinct. */
  lemma FinalReducerNamesDistinct(joiners: int)
    ensures forall k, l :: 0 <= k < l < |FinalReducers(joiners)| ==>
      FinalReducers(joiners)[k].name != FinalReducers(joiners)[l].name
  {
    var f := FinalReducers(joiners);
    forall k, l | 0 <= k < l < |f|
      ensures f[k].name != f[l].name
    {
      OrdinalNamesDistinct("final-reducer-q", k + 2, l + 2);
    }
  }

  /** Joiner j is `joiner-<j>` with JOINER_ID = j and no JOINER_SHARDS. */
  lemma JoinerAt(joiners: int, j: nat)
    requires 1 <= j <= joiners
    ensures Joiners(joiners)[j - 1].name == "joiner-" + NatToString(j)
    ensures EnvValue(Joiners(joiners)[j - 1].env, "JOINER_ID") == Some(NatToString(j))
    ensures EnvValue(Joiners(joiners)[j - 1].env, "JOINER_SHARDS").None?
  {
    var extra := NodeEnv("joiner", Some(j), None);
    assert Joiners(joiners)[j - 1] == NodeService(JoinerName(j), "joiner", extra);
    NodeEnvKeys("joiner", Some(j), None);
    EnvValueAfterBase(extra, "JOINER_ID");
    EnvValueAfterBase(extra, "JOINER_SHARDS");
  }

  /** Joiner names are pairwise distinct; a joiner count of 0 yields none. */
  lemma JoinerNamesDistinct(joiners: int)
    ensures joiners <= 0 ==> Joiners(joiners) == []
    ensures forall k, l :: 0 <= k < l < |Joiners(joiners)| ==> Joiners(joiners)[k].name != Joiners(joiners)[l].name
  {
    forall k, l | 0 <= k < l < |Joiners(joiners)|
      ensures Joiners(joiners)[k].name != Joiners(joiners)[l].name
    {
      JoinerNamesDiffer(joiners, k, l);
    }
  }

  lemma JoinerNamesDiffer(joiners: int, k: nat, l: nat)
    requires k < l < Count(joiners)
    ensures Joiners(joiners)[k].name != Joiners(joiners)[l].name
  {
    JoinerNameAt(joiners, k);
    JoinerNameAt(joiners, l);
    OrdinalNamesDistinct("joiner-", k + 1, l + 1);
  }

  lemma JoinerNameAt(joiners: int, k: nat)
    requires k < Count(joiners)
    ensures Joiners(joiners)[k].name == JoinerName(k + 1)
  {
  }

  /** Client c is `client<c>` with CLI_ID = c, and each of its files is entry
      (c - 1) mod length of that category's list, so any client count works. */
  lemma ClientAt(clients: nat, movies: seq<string>, reviews: seq<string>, credits: seq<string>, c: nat)
    requires movies != [] && reviews != [] && credits != []
    requires 1 <= c <= clients
    ensures ClientList(clients, movies, reviews, credits)[c - 1].name == "client" + NatToString(c)
    ensures ClientList(clients, movies, reviews, credits)[c - 1].dependsOn == Some("gateway")
    ensures ClientList(clients, movies, reviews, credits)[c - 1].env == [
      EnvVar("CLI_ID", NatToString(c)),
      EnvVar("MOVIES_FILE", movies[(c - 1) % |movies|]),
      EnvVar("REVIEWS_FILE", reviews[(c - 1) % |reviews|]),
      EnvVar("CREDITS_FILE", credits[(c - 1) % |credits|])]
  {
  }

  /** Client names are pairwise distinct. */
  lemma ClientNamesDistinct(clients: nat, movies: seq<string>, reviews: seq<string>, credits: seq<string>)
    requires movies != [] && reviews != [] && credits != []
    ensures forall k, l :: 0 <= k < l < clients ==>
      ClientList(clients, movies, reviews, credits)[k].name != ClientList(clients, movies, reviews, credits)[l].name
  {
    var cs := ClientList(clients, movies, reviews, credits);
    forall k, l | 0 <= k < l < clients
      ensures cs[k].name != cs[l].name
    {
      OrdinalNamesDistinct("client", k + 1, l + 1);
    }
  }

  /** Clients are generated iff the client count is not positive or all three
      categories have lists, and then come from those lists. */
  lemma ClientsOk(cfg: Config)
    requires cfg.Valid()
    ensures Clients(cfg.clients, cfg).Ok? <==>
      || cfg.clients < 1
      || (CategoryFiles(cfg, "movies").Some? && CategoryFiles(cfg, "reviews").Some?
          && CategoryFiles(cfg, "credits").Some?)
    ensures cfg.clients < 1 ==> Clients(cfg.clients, cfg) == Ok([])
    ensures Clients(cfg.clients, cfg).Ok? && cfg.clients >= 1 ==>
      Clients(cfg.clients, cfg).value == ClientList(cfg.clients, CategoryFiles(cfg, "movies").value,
        CategoryFiles(cfg, "reviews").value, CategoryFiles(cfg, "credits").value)
  {
  }

  /** The position in the role table's services where table entry k starts. */
  function Offset(nodes: seq<(string, int)>, k: nat): (r: nat)
    requires k < |nodes|
    ensures r + Count(nodes[k].1) <= TotalReplicas(nodes)
  {
    TotalReplicasPrefix(nodes, k + 1);
    assert nodes[..k + 1][..k] == nodes[..k];
    TotalReplicas(nodes[..k])
  }

  /** Table entries are expanded in table order: replica i of entry k sits at
      the offset of entry k plus i. */
  lemma {:induction false} NodeServicesAt(nodes: seq<(string, int)>, joiners: int, k: nat, i: nat)
    requires k < |nodes| && i < Count(nodes[k].1)
    ensures Offset(nodes, k) + i < |NodeServices(nodes, joiners)|
    ensures NodeServices(nodes, joiners)[Offset(nodes, k) + i] == Replicas(nodes[k].0, nodes[k].1, joiners)[i]
  {
    var init := nodes[..|nodes| - 1];
    var front := NodeServices(init, joiners);
    var back := Replicas(nodes[|nodes| - 1].0, nodes[|nodes| - 1].1, joiners);
    assert NodeServices(nodes, joiners) == front + back;
    if k == |nodes| - 1 {
      assert nodes[..k] == init;
      assert Offset(nodes, k) == |front|;
      assert (front + back)[|front| + i] == back[i];
    } else {
      assert nodes[..k] == init[..k];
      assert Offset(nodes, k) == Offset(init, k);
      NodeServicesAt(init, joiners, k, i);
      TotalReplicasPrefix(init, k);
      assert (front + back)[Offset(init, k) + i] == front[Offset(init, k) + i];
    }
  }

  lemma {:induction false} TotalReplicasPrefix(nodes: seq<(string, int)>, k: nat)
    requires k <= |nodes|
    ensures TotalReplicas(nodes[..k]) <= TotalReplicas(nodes)
    decreases |nodes|
  {
    if k < |nodes| {
      var init := nodes[..|nodes| - 1];
      assert nodes[..k] == init[..k];
      TotalReplicasPrefix(init, k);
    } else {
      assert nodes[..k] == nodes;
    }
  }

  /** Generation fails only when there are clients and a file category is missing. */
  lemma ManifestFails(cfg: Config)
    requires cfg.Valid()
    ensures Manifest(cfg).Err? <==>
      && cfg.clients >= 1
      && (CategoryFiles(cfg, "movies").None? || CategoryFiles(cfg, "reviews").None?
          || CategoryFiles(cfg, "credits").None?)
  {
    ClientsOk(cfg);
  }

  /** The servers in order: gateway, broker, the role table in table order, the
      four final reducers, then the joiners. */
  lemma ServersLayout(cfg: Config)
    ensures |Servers(cfg)| == 2 + TotalReplicas(cfg.nodes) + 4 + Count(cfg.joiners)
    ensures Servers(cfg)[0] == Gateway() && Servers(cfg)[1] == Broker()
    ensures forall k, i :: 0 <= k < |cfg.nodes| && 0 <= i < Count(cfg.nodes[k].1) ==>
      Servers(cfg)[2 + Offset(cfg.nodes, k) + i] == Replicas(cfg.nodes[k].0, cfg.nodes[k].1, cfg.joiners)[i]
    ensures Servers(cfg)[2 + TotalReplicas(cfg.nodes)..][..4] == FinalReducers(cfg.joiners)
    ensures Servers(cfg)[2 + TotalReplicas(cfg.nodes) + 4..] == Joiners(cfg.joiners)
  {
    var s := Servers(cfg);
    var ns := NodeServices(cfg.nodes, cfg.joiners);
    forall k, i | 0 <= k < |cfg.nodes| && 0 <= i < Count(cfg.nodes[k].1)
      ensures s[2 + Offset(cfg.nodes, k) + i] == Replicas(cfg.nodes[k].0, cfg.nodes[k].1, cfg.joiners)[i]
    {
      NodeServicesAt(cfg.nodes, cfg.joiners, k, i);
    }
  }

  /** The clients follow the servers, and the manifest has one service per
      replica, four final reducers, one per joiner and one per client, plus the
      gateway and the broker. */
  lemma ManifestLayout(cfg: Config)
    requires cfg.Valid() && Manifest(cfg).Ok?
    ensures |Manifest(cfg).value| == 2 + TotalReplicas(cfg.nodes) + 4 + Count(cfg.joiners) + Count(cfg.clients)
    ensures Manifest(cfg).value[..|Servers(cfg)|] == Servers(cfg)
    ensures Manifest(cfg).value[|Servers(cfg)|..] == Clients(cfg.clients, cfg).value
  {
    ClientsOk(cfg);
    ServersLayout(cfg);
  }
}
