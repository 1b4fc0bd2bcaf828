/** The fault injector's whitelist: which container names it may kill. Each
    pattern is a fixed prefix followed by `\d+$`, matched from the start of the
    name; `$` also matches just before a final newline. `\d` is taken as the
    ASCII digits, since container names are ASCII; Python's `\d` on a str
    pattern also accepts the decimal digits of other scripts. */
module KillContainers {
  import opened Text
  import Compose

  /** The literal prefixes of the whitelist patterns, in list order. The
      gateway's pattern is commented out in the list and so is absent. */
  const WHITELIST: seq<string> := [
    "joiner-",
    "reducer-",
    "final-reducer-q",
    "preprocessor-",
    "production-filter-",
    "year-filter-",
    "sentiment-analyzer-"
  ]

  /** `\d+$` matched against the whole of `t`, with ASCII digits. */
  predicate DigitsToEnd(t: string)
  {
    IsDigits(t) || (|t| >= 2 && t[|t| - 1] == '\n' && IsDigits(t[..|t| - 1]))
  }

  /** `re.match(prefix + "\d+$", name)`: anchored at the start, running to the end. */
  predicate PatternMatch(prefix: string, name: string)
  {
    prefix <= name && DigitsToEnd(name[|prefix|..])
  }

  /** Python's `any(p.match(name) for p in patterns)`. */
  function AnyMatch(patterns: seq<string>, name: string): (r: bool)
    ensures r <==> exists k :: 0 <= k < |patterns| && PatternMatch(patterns[k], name)
  {
    if patterns == [] then false
    else if PatternMatch(patterns[0], name) then true
    else
      var r := AnyMatch(patterns[1..], name);
      assert r ==> exists k :: 0 <= k < |patterns[1..]| && PatternMatch(patterns[1..][k], name);
      assert (exists k :: 0 <= k < |patterns| && PatternMatch(patterns[k], name)) ==>
        exists k :: 0 <= k < |patterns[1..]| && PatternMatch(patterns[1..][k], name);
      r
  }

  /** A container may be killed iff some whitelist pattern matches its name. */
  function IsWhitelisted(name: string): (r: bool)
    ensures r <==> exists k :: 0 <= k < |WHITELIST| && PatternMatch(WHITELIST[k], name)
  {
    AnyMatch(WHITELIST, name)
  }

  /** One pattern matches exactly its prefix followed by one or more digits,
      optionally followed by a single newline. */
  lemma PatternShape(prefix: string, name: string)
    ensures PatternMatch(prefix, name) <==>
      exists d :: IsDigits(d) && (name == prefix + d || name == prefix + d + "\n")
  {
    if PatternMatch(prefix, name) {
      var t := name[|prefix|..];
      assert name == prefix + t;
      if !IsDigits(t) {
        var d := t[..|t| - 1];
        assert t == d + "\n";
        assert name == prefix + d + "\n";
      }
    }
    if exists d :: IsDigits(d) && (name == prefix + d || name == prefix + d + "\n") {
      var d :| IsDigits(d) && (name == prefix + d || name == prefix + d + "\n");
      assert prefix <= name;
      if name == prefix + d {
        assert name[|prefix|..] == d;
      } else {
        assert name[|prefix|..] == d + "\n";
        assert (d + "\n")[..|d|] == d;
      }
    }
  }

  /** A name that starts with none of the patterns' first letters is never matched. */
  lemma FirstLetterExcludes(name: string)
    requires name != [] && name[0] !in {'j', 'r', 'f', 'p', 'y', 's'}
    ensures !IsWhitelisted(name)
  {
    forall k | 0 <= k < |WHITELIST|
      ensures !PatternMatch(WHITELIST[k], name)
    {
      assert WHITELIST[k][0] in {'j', 'r', 'f', 'p', 'y', 's'};
    }
  }

  /** A name no longer than every pattern's prefix is never matched: at least
      one digit must follow the prefix. */
  lemma ShortExcludes(name: string, k: nat)
    requires k < |WHITELIST| && |name| <= |WHITELIST[k]|
    ensures !PatternMatch(WHITELIST[k], name)
  {
  }

  /** Names that are never killed: the gateway, the broker and every client. */
  lemma NotWhitelisted(c: nat)
    ensures !IsWhitelisted("gateway")
    ensures !IsWhitelisted("rabbitmq")
    ensures !IsWhitelisted("client" + NatToString(c))
  {
    FirstLetterExcludes("gateway");
    FirstLetterExcludes("client" + NatToString(c));
    forall k | 0 <= k < |WHITELIST|
      ensures !PatternMatch(WHITELIST[k], "rabbitmq")
    {
      DiffersAt("rabbitmq", k, if k == 1 then 1 else 0);
    }
  }

  /** A name that differs from a pattern's prefix at some position within both is not matched by it. */
  lemma DiffersAt(name: string, k: nat, i: nat)
    requires k < |WHITELIST| && i < |WHITELIST[k]| && i < |name| && WHITELIST[k][i] != name[i]
    ensures !PatternMatch(WHITELIST[k], name)
  {
  }

  /** The roles with a pattern, in WHITELIST order. */
  const ROLES: seq<string> := [
    "joiner", "reducer", "final-reducer", "preprocessor", "production-filter", "year-filter", "sentiment-analyzer"
  ]

  /** The bare name of a role deployed as a single replica is never killed:
      it is too short for its own pattern and differs from every other prefix. */
  lemma BareRoleNotWhitelisted(r: nat)
    requires r < |ROLES|
    ensures !IsWhitelisted(ROLES[r])
  {
    var name := ROLES[r];
    forall k | 0 <= k < |WHITELIST|
      ensures !PatternMatch(WHITELIST[k], name)
    {
      if k == r {
        ShortExcludes(name, k);
      } else if (r == 3 && k == 4) || (r == 4 && k == 3) {
        DiffersAt(name, k, 2);
      } else {
        DiffersAt(name, k, 0);
      }
    }
  }

  /** Matching is anchored at the start: `final-reducer-1` matches nothing, and
      the reducer pattern never matches a final reducer's name. */
  lemma AnchoredAtStart(suffix: string)
    ensures !IsWhitelisted("final-reducer-1")
    ensures !PatternMatch("reducer-", "final-reducer" + suffix)
  {
    var name := "final-reducer" + suffix;
    assert name[0] == 'f';
    forall k | 0 <= k < |WHITELIST|
      ensures !PatternMatch(WHITELIST[k], "final-reducer-1")
    {
      DiffersAt("final-reducer-1", k, if k == 2 then 14 else 0);
    }
  }

  lemma OrdinalMatches(prefix: string, n: nat)
    ensures PatternMatch(prefix, prefix + NatToString(n))
  {
    assert (prefix + NatToString(n))[|prefix|..] == NatToString(n);
  }

  /** The generator's joiner and final reducer names are all matched. */
  lemma GeneratedNamesWhitelisted(joiners: int)
    ensures forall j :: 0 <= j < |Compose.Joiners(joiners)| ==> IsWhitelisted(Compose.Joiners(joiners)[j].name)
    ensures forall q :: 0 <= q < |Compose.FinalReducers(joiners)| ==>
      IsWhitelisted(Compose.FinalReducers(joiners)[q].name)
  {
    forall j | 0 <= j < |Compose.Joiners(joiners)|
      ensures IsWhitelisted(Compose.Joiners(joiners)[j].name)
    {
      OrdinalMatches("joiner-", j + 1);
      assert Compose.Joiners(joiners)[j].name == WHITELIST[0] + NatToString(j + 1);
    }
    forall q | 0 <= q < |Compose.FinalReducers(joiners)|
      ensures IsWhitelisted(Compose.FinalReducers(joiners)[q].name)
    {
      OrdinalMatches("final-reducer-q", q + 2);
      assert Compose.FinalReducers(joiners)[q].name == WHITELIST[2] + NatToString(q + 2);
    }
  }

  /** Replicas of a role with a whitelist pattern, deployed with more than one
      replica, are all matched. */
  lemma ReplicasWhitelisted(role: string, count: int, joiners: int, k: nat)
    requires k < |WHITELIST| && WHITELIST[k] == role + "-" && count > 1
    ensures forall i :: 0 <= i < |Compose.Replicas(role, count, joiners)| ==>
      IsWhitelisted(Compose.Replicas(role, count, joiners)[i].name)
  {
    forall i | 0 <= i < |Compose.Replicas(role, count, joiners)|
      ensures IsWhitelisted(Compose.Replicas(role, count, joiners)[i].name)
    {
      OrdinalMatches(role + "-", i + 1);
      assert Compose.Replicas(role, count, joiners)[i].name == WHITELIST[k] + NatToString(i + 1);
    }
  }
}
