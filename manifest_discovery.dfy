/**
 * kona/core/k8s_manifest_discovery.py: after a deployment, every applied klodd `Challenge`
 * manifest with a name gives each challenge item of the directory an HTTPS endpoint under
 * the configured klodd domain.
 */
module ManifestDiscovery {
  import opened Wrappers
  import opened Json
  import opened Errors
  import opened Text
  import opened Models

  const KLODD_API_VERSION := "klodd.tjcsec.club/v1"
  const KLODD_KIND := "Challenge"

  predicate Matches(apiVersion: string, kind: string, m: Dict) {
    Get(m, "kind") == Str(kind) && Get(m, "apiVersion") == Str(apiVersion)
  }

  /** `_find_manifests`: the manifests of that apiVersion and kind, in their original order. */
  function FindManifests(apiVersion: string, kind: string, manifests: seq<Dict>): (r: seq<Dict>)
    ensures |r| <= |manifests|
    ensures forall m :: m in r <==> m in manifests && Matches(apiVersion, kind, m)
  {
    if |manifests| == 0 then []
    else
      var last := manifests[|manifests| - 1];
      FindManifests(apiVersion, kind, manifests[..|manifests| - 1]) + (if Matches(apiVersion, kind, last) then [last] else [])
  }

  /** The filter keeps order: filtering a concatenation concatenates the filtered parts. */
  lemma {:induction false} FindManifestsAppend(apiVersion: string, kind: string, a: seq<Dict>, b: seq<Dict>)
    ensures FindManifests(apiVersion, kind, a + b) == FindManifests(apiVersion, kind, a) + FindManifests(apiVersion, kind, b)
    decreases |b|
  {
    if |b| == 0 {
      assert a + b == a;
    } else {
      assert (a + b)[..|a + b| - 1] == a + b[..|b| - 1];
      FindManifestsAppend(apiVersion, kind, a, b[..|b| - 1]);
    }
  }

  /** How an f-string shows a name value. */
  function Display(v: Value): string {
    match v
    case Str(s) => s
    case Int(i) => IntToString(i)
    case Bool(b) => if b then "True" else "False"
    case Null => "None"
    case List(_) => "[...]"
    case Object(_) => "{...}"
  }

  predicate DomainSet(d: DiscoveryConfig) {
    d.kloddDomain.Some? && d.kloddDomain.value != ""
  }

  /** The starter endpoint of a klodd challenge. */
  function KloddEndpoint(d: DiscoveryConfig, name: Value): Endpoint {
    Endpoint(d.kloddEndpointName, Https, d.kloddDomain.GetOr("") + "/challenge/" + Display(name), None)
  }

  /** `klodd_challenge.get('metadata', {})` is present but not a dict: the next `.get` raises. */
  predicate BadMetadata(m: Dict) {
    "metadata" in m && !m["metadata"].Object?
  }

  function NameOf(m: Dict): Value {
    if "metadata" in m && m["metadata"].Object? then Get(m["metadata"].fields, "name") else Null
  }

  /** What one matching manifest contributes: nothing without a name or without a domain. */
  function EndpointOf(d: DiscoveryConfig, m: Dict): Result<seq<Endpoint>, Error> {
    if BadMetadata(m) then Err(NotADict)
    else if !Truthy(NameOf(m)) || !DomainSet(d) then Ok([])
    else Ok([KloddEndpoint(d, NameOf(m))])
  }

  /** The endpoints the matching manifests give, in manifest order. */
  function KloddEndpoints(d: DiscoveryConfig, matches: seq<Dict>): Result<seq<Endpoint>, Error>
    decreases |matches|
  {
    if |matches| == 0 then Ok([])
    else
      var prev :- KloddEndpoints(d, matches[..|matches| - 1]);
      var more :- EndpointOf(d, matches[|matches| - 1]);
      Ok(prev + more)
  }

  /** Every item with the endpoints appended after its own. */
  function WithEndpoints(items: seq<ChallengeItem>, eps: seq<Endpoint>): (r: seq<ChallengeItem>)
    ensures |r| == |items|
    ensures forall i :: 0 <= i < |items| ==> r[i] == items[i].(endpoints := items[i].endpoints + eps)
  {
    if |items| == 0 then [] else [items[0].(endpoints := items[0].endpoints + eps)] + WithEndpoints(items[1..], eps)
  }

  /** The challenge configuration once the discovered endpoints have been appended. */
  function Discovered(d: DiscoveryConfig, challenge: ChallengeConfig, deployed: seq<Dict>): Result<ChallengeConfig, Error> {
    match KloddEndpoints(d, FindManifests(KLODD_API_VERSION, KLODD_KIND, deployed))
    case Err(e) => Err(e)
    case Ok(eps) => Ok(challenge.(challenges := WithEndpoints(challenge.challenges, eps)))
  }

  lemma {:induction false} KloddEndpointsStopped(d: DiscoveryConfig, matches: seq<Dict>, n: nat)
    requires n <= |matches| && KloddEndpoints(d, matches[..n]).Err?
    ensures KloddEndpoints(d, matches) == KloddEndpoints(d, matches[..n])
    decreases |matches| - n
  {
    if n < |matches| {
      assert matches[..n + 1][..n] == matches[..n];
      KloddEndpointsStopped(d, matches, n + 1);
    } else {
      assert matches[..n] == matches;
    }
  }

  /**
   * `discover_klodd_endpoint`. The item list is updated as a value: the model returns the
   * configuration with every item's endpoints extended.
   */
  method DiscoverKloddEndpoint(config: GlobalConfig, challenge: ChallengeConfig, deployed: seq<Dict>)
    returns (r: Result<ChallengeConfig, Error>)
    ensures r == Discovered(config.discovery, challenge, deployed)
  {
    var d := config.discovery;
    var matches := FindManifests(KLODD_API_VERSION, KLODD_KIND, deployed);
    var items := challenge.challenges;
    ghost var eps: seq<Endpoint> := [];
    WithNoEndpoints(items);
    for i := 0 to |matches|
      invariant KloddEndpoints(d, matches[..i]) == Ok(eps)
      invariant items == WithEndpoints(challenge.challenges, eps)
    {
      var m := matches[i];
      assert matches[..i + 1][..i] == matches[..i];
      if "metadata" in m && !m["metadata"].Object? {
        KloddEndpointsStopped(d, matches, i + 1);
        return Err(NotADict);
      }
      var metadata := if "metadata" in m then m["metadata"].fields else map[];
      var name := Get(metadata, "name");
      if !Truthy(name) {
        assert eps + [] == eps;
        continue;
      }
      if !(d.kloddDomain.Some? && d.kloddDomain.value != "") {
        assert eps + [] == eps;
        continue;
      }
      var endpoint := Endpoint(d.kloddEndpointName, Https, d.kloddDomain.value + "/challenge/" + Display(name), None);
      items := AppendToAll(items, endpoint);
      WithEndpointsTwice(challenge.challenges, eps, [endpoint]);
      eps := eps + [endpoint];
    }
    assert matches[..|matches|] == matches;
    return Ok(challenge.(challenges := items));
  }

  /** The inner loop of `discover_klodd_endpoint`: `endpoint` appended to every item's endpoints. */
  method AppendToAll(items: seq<ChallengeItem>, endpoint: Endpoint) returns (r: seq<ChallengeItem>)
    ensures r == WithEndpoints(items, [endpoint])
  {
    r := items;
    for j := 0 to |items|
      invariant |r| == |items|
      invariant forall k :: 0 <= k < j ==> r[k] == items[k].(endpoints := items[k].endpoints + [endpoint])
      invariant forall k :: j <= k < |items| ==> r[k] == items[k]
    {
      r := r[j := r[j].(endpoints := r[j].endpoints + [endpoint])];
    }
  }

  /** Appending no endpoints changes nothing. */
  lemma WithNoEndpoints(items: seq<ChallengeItem>)
    ensures WithEndpoints(items, []) == items
  {
    var r := WithEndpoints(items, []);
    forall k | 0 <= k < |items|
      ensures r[k] == items[k]
    {
      assert items[k].endpoints + [] == items[k].endpoints;
    }
  }

  /** Appending `eps` and then `more` appends `eps + more`. */
  lemma WithEndpointsTwice(items: seq<ChallengeItem>, eps: seq<Endpoint>, more: seq<Endpoint>)
    ensures WithEndpoints(WithEndpoints(items, eps), more) == WithEndpoints(items, eps + more)
  {
    var once, twice := WithEndpoints(items, eps), WithEndpoints(WithEndpoints(items, eps), more);
    forall k | 0 <= k < |items|
      ensures twice[k] == WithEndpoints(items, eps + more)[k]
    {
      ConcatAssoc(items[k].endpoints, eps, more);
      assert once[k] == items[k].(endpoints := items[k].endpoints + eps);
    }
  }

  /** `discover_deployed_endpoints` delegates to the klodd discovery. */
  method DiscoverDeployedEndpoints(config: GlobalConfig, challenge: ChallengeConfig, deployed: seq<Dict>)
    returns (r: Result<ChallengeConfig, Error>)
    ensures r.Ok? ==> |r.value.challenges| == |challenge.challenges|
    ensures r == Discovered(config.discovery, challenge, deployed)
  {
    r := DiscoverKloddEndpoint(config, challenge, deployed);
  }

  // ---------------------------------------------------------------- properties

  /** The names of the matches that have one, in order. */
  function Names(matches: seq<Dict>): seq<Value> {
    if |matches| == 0 then []
    else Names(matches[..|matches| - 1]) + (if Truthy(NameOf(matches[|matches| - 1])) then [NameOf(matches[|matches| - 1])] else [])
  }

  /** Without a klodd domain nothing is discovered. */
  lemma {:induction false} NoDomainNoEndpoints(d: DiscoveryConfig, matches: seq<Dict>)
    requires !DomainSet(d) && KloddEndpoints(d, matches).Ok?
    ensures KloddEndpoints(d, matches).value == []
    decreases |matches|
  {
    if |matches| > 0 {
      NoDomainNoEndpoints(d, matches[..|matches| - 1]);
    }
  }

  /** Discovery fails exactly when some matching manifest has a `metadata` that is not a dict. */
  lemma {:induction false} KloddEndpointsFail(d: DiscoveryConfig, matches: seq<Dict>)
    ensures KloddEndpoints(d, matches).Err? <==> exists i :: 0 <= i < |matches| && BadMetadata(matches[i])
    ensures KloddEndpoints(d, matches).Err? ==> KloddEndpoints(d, matches).error == NotADict
    decreases |matches|
  {
    if |matches| > 0 {
      var init := matches[..|matches| - 1];
      KloddEndpointsFail(d, init);
      if exists i :: 0 <= i < |init| && BadMetadata(init[i]) {
        var i :| 0 <= i < |init| && BadMetadata(init[i]);
        assert matches[i] == init[i];
      }
      if exists i :: 0 <= i < |matches| && BadMetadata(matches[i]) {
        var i :| 0 <= i < |matches| && BadMetadata(matches[i]);
        if i < |init| {
          assert init[i] == matches[i];
        }
      }
    }
  }

  /**
   * With a domain set, each named match gives one HTTPS endpoint `domain/challenge/name`,
   * named after the configured endpoint name and without a port, in manifest order.
   */
  lemma {:induction false} EndpointsOfNamedMatches(d: DiscoveryConfig, matches: seq<Dict>)
    requires DomainSet(d) && KloddEndpoints(d, matches).Ok?
    ensures var eps := KloddEndpoints(d, matches).value;
            |eps| == |Names(matches)| &&
            forall i :: 0 <= i < |eps| ==>
              eps[i] == Endpoint(d.kloddEndpointName, Https, d.kloddDomain.value + "/challenge/" + Display(Names(matches)[i]), None)
    decreases |matches|
  {
    if |matches| > 0 {
      EndpointsOfNamedMatches(d, matches[..|matches| - 1]);
    }
  }

  /** `m` and `n` differ at most in their `_action` entry. */
  predicate SameButAction(m: Dict, n: Dict) {
    m - {"_action"} == n - {"_action"}
  }

  lemma SameButActionMatches(m: Dict, n: Dict)
    requires SameButAction(m, n)
    ensures Matches(KLODD_API_VERSION, KLODD_KIND, m) == Matches(KLODD_API_VERSION, KLODD_KIND, n)
    ensures BadMetadata(m) == BadMetadata(n) && NameOf(m) == NameOf(n)
  {
    assert "kind" in m <==> "kind" in m - {"_action"};
    assert "kind" in n <==> "kind" in n - {"_action"};
    assert "apiVersion" in m <==> "apiVersion" in m - {"_action"};
    assert "apiVersion" in n <==> "apiVersion" in n - {"_action"};
    assert "metadata" in m <==> "metadata" in m - {"_action"};
    assert "metadata" in n <==> "metadata" in n - {"_action"};
  }

  predicate Pointwise(a: seq<Dict>, b: seq<Dict>) {
    |a| == |b| && forall i :: 0 <= i < |a| ==> SameButAction(a[i], b[i])
  }

  lemma {:induction false} FindManifestsPointwise(deployed: seq<Dict>, relabelled: seq<Dict>)
    requires Pointwise(deployed, relabelled)
    ensures Pointwise(FindManifests(KLODD_API_VERSION, KLODD_KIND, deployed), FindManifests(KLODD_API_VERSION, KLODD_KIND, relabelled))
    decreases |deployed|
  {
    if |deployed| > 0 {
      var n := |deployed| - 1;
      FindManifestsPointwise(deployed[..n], relabelled[..n]);
      SameButActionMatches(deployed[n], relabelled[n]);
    }
  }

  lemma {:induction false} EndpointsPointwise(d: DiscoveryConfig, a: seq<Dict>, b: seq<Dict>)
    requires Pointwise(a, b)
    ensures KloddEndpoints(d, a) == KloddEndpoints(d, b)
    decreases |a|
  {
    if |a| > 0 {
      var n := |a| - 1;
      EndpointsPointwise(d, a[..n], b[..n]);
      SameButActionMatches(a[n], b[n]);
    }
  }

  /**
   * The recorded `_action` is never consulted: records that differ only in it, such as an
   * `unchanged` and a `created` one, discover the same endpoints.
   */
  lemma ActionIgnored(d: DiscoveryConfig, deployed: seq<Dict>, relabelled: seq<Dict>)
    requires |deployed| == |relabelled| && forall i :: 0 <= i < |deployed| ==> SameButAction(deployed[i], relabelled[i])
    ensures KloddEndpoints(d, FindManifests(KLODD_API_VERSION, KLODD_KIND, deployed)) ==
            KloddEndpoints(d, FindManifests(KLODD_API_VERSION, KLODD_KIND, relabelled))
  {
    FindManifestsPointwise(deployed, relabelled);
    EndpointsPointwise(d, FindManifests(KLODD_API_VERSION, KLODD_KIND, deployed), FindManifests(KLODD_API_VERSION, KLODD_KIND, relabelled));
  }
}
