/**
 * kona/core/sync.py: the walk over the challenge directory tree. Every directory below the
 * root, down to the configured depth, is probed for a challenge schema; a schema that is not
 * skipped is deployed, gets its endpoints discovered, and has each of its challenges sent to
 * every external provider. The outside world (schema files, the deployment step, template
 * rendering, the temporary directory) is a `World` value; the calls made on it are recorded
 * in order.
 */
module Sync {
  import opened Wrappers
  import opened Json
  import opened Errors
  import opened Text
  import opened Models
  import opened FileTree
  import opened Kubernetes
  import ManifestDiscovery

  datatype Provider = Rctf | Ctfd

  /** `SynchronizedChallenge`. */
  datatype SynchronizedChallenge = SynchronizedChallenge(description: string, attachments: seq<string>)

  /** What `deploy_challenge` hands back: the applied manifest records and the pushed refs. */
  datatype DeployOutcome = DeployOutcome(deployed: seq<Dict>, builtImages: seq<string>)

  /** `SynchronizedGroup`. */
  datatype Group = Group(deployment: DeployOutcome, challenges: seq<SynchronizedChallenge>)

  /** The calls made on the outside world, in the order they are made. */
  datatype Call =
    | LoadSchema(path: string)
    | MakeTarGz(tarball: string, files: seq<string>)
    | SyncChallengeCall(provider: Provider, challengeId: string, archive: Option<string>, description: string)
    | Setup(provider: Provider)
    | Activate(cluster: string)

  /**
   * The outside world: `try_load_schema` per path, `deploy_challenge` per path, the rendered
   * description of a challenge item and the temporary directory archives are written to.
   */
  datatype World = World(
    schemas: string -> Option<ChallengeConfig>,
    deployments: string -> Result<DeployOutcome, Error>,
    describe: ChallengeItem -> string,
    tmp: string)

  /** rCTF first, then CTFd, each only when its credentials are configured. */
  function Providers(config: GlobalConfig): (r: seq<Provider>)
    ensures Rctf in r <==> config.rctf.Some?
    ensures Ctfd in r <==> config.ctfd.Some?
    ensures |r| <= 2 && (|r| == 2 ==> r == [Rctf, Ctfd])
  {
    (if config.rctf.Some? then [Rctf] else []) + (if config.ctfd.Some? then [Ctfd] else [])
  }

  function SetupCalls(ps: seq<Provider>): (r: seq<Call>)
    ensures |r| == |ps| && forall i :: 0 <= i < |ps| ==> r[i] == Setup(ps[i])
  {
    if |ps| == 0 then [] else SetupCalls(ps[..|ps| - 1]) + [Setup(ps[|ps| - 1])]
  }

  /** The provider calls for one challenge: for each provider, its sync and then its setup. */
  function ProviderCalls(ps: seq<Provider>, id: string, archive: Option<string>, description: string): seq<Call> {
    if |ps| == 0 then []
    else ProviderCalls(ps[..|ps| - 1], id, archive, description) +
         [SyncChallengeCall(ps[|ps| - 1], id, archive, description), Setup(ps[|ps| - 1])]
  }

  /** `[(path / item) for item in chal.attachments]`. */
  function AttachmentPaths(path: string, names: seq<string>): (r: seq<string>)
    ensures |r| == |names| && forall i :: 0 <= i < |names| ==> r[i] == Join(path, names[i])
  {
    if |names| == 0 then [] else AttachmentPaths(path, names[..|names| - 1]) + [Join(path, names[|names| - 1])]
  }

  /** The archive handed to the providers: only a challenge with attachments has one. */
  function Archive(w: World, item: ChallengeItem): Option<string> {
    if |item.attachments| > 0 then Some(Join(w.tmp, ChallengeId(item.category, item.name) + ".tar.gz")) else None
  }

  function ItemCalls(w: World, ps: seq<Provider>, path: string, item: ChallengeItem): seq<Call> {
    var archive := Archive(w, item);
    (if archive.Some? then [MakeTarGz(archive.value, AttachmentPaths(path, item.attachments))] else []) +
    ProviderCalls(ps, ChallengeId(item.category, item.name), archive, w.describe(item))
  }

  datatype ChallengeRun = ChallengeRun(calls: seq<Call>, synced: seq<SynchronizedChallenge>)

  /** The loop over the challenge items of one schema. */
  function ChallengesS(w: World, ps: seq<Provider>, path: string, items: seq<ChallengeItem>): ChallengeRun {
    if |items| == 0 then ChallengeRun([], [])
    else
      var prev := ChallengesS(w, ps, path, items[..|items| - 1]);
      var item := items[|items| - 1];
      ChallengeRun(prev.calls + ItemCalls(w, ps, path, item),
                   prev.synced + [SynchronizedChallenge(w.describe(item), AttachmentPaths(path, item.attachments))])
  }

  /** The groups and calls so far, and the exception that stopped the walk, if any. */
  datatype Progress = Progress(groups: seq<Group>, calls: seq<Call>, err: Option<Error>)

  /** `sync_challenge`. */
  function SyncChallengeS(w: World, config: GlobalConfig, p: Progress, path: string, challenge: ChallengeConfig): Progress {
    if challenge.skip then p
    else match w.deployments(path)
      case Err(e) => p.(err := Some(e))
      case Ok(d) =>
        match ManifestDiscovery.Discovered(config.discovery, challenge, d.deployed)
        case Err(e) => p.(err := Some(e))
        case Ok(c) =>
          var run := ChallengesS(w, Providers(config), path, c.challenges);
          Progress(p.groups + [Group(d, run.synced)], p.calls + run.calls, None)
  }

  /** The schema probe of `try_discover_challenges`: every node but the root is probed, and a found schema synced. */
  function Probe(w: World, config: GlobalConfig, p: Progress, node: Node, isRoot: bool): Progress {
    if isRoot then p
    else
      var q := p.(calls := p.calls + [LoadSchema(node.path)]);
      match w.schemas(node.path)
      case None => q
      case Some(c) => SyncChallengeS(w, config, q, node.path, c)
  }

  /** `try_discover_challenges` on `node` at `depth`. */
  function WalkS(w: World, config: GlobalConfig, p: Progress, node: Node, depth: int, isRoot: bool): Progress
    decreases node
  {
    if depth > config.discovery.challengeFolderDepth then p
    else
      var loaded := Probe(w, config, p, node, isRoot);
      if loaded.err.Some? then loaded
      else match node
        case File(path) => loaded.(err := Some(NotADirectory(path)))
        case Dir(_, entries) => ChildrenS(w, config, loaded, entries, depth + 1)
  }

  /** The loop over a directory's entries: files are passed over, directories walked. */
  function ChildrenS(w: World, config: GlobalConfig, p: Progress, entries: seq<Node>, depth: int): Progress
    decreases entries
  {
    if |entries| == 0 then p
    else
      var prev := ChildrenS(w, config, p, entries[..|entries| - 1], depth);
      var last := entries[|entries| - 1];
      if prev.err.Some? || last.File? then prev else WalkS(w, config, prev, last, depth, false)
  }

  function ErrOf(r: Result<(), Error>): Option<Error> {
    if r.Err? then Some(r.error) else None
  }

  /** `SyncResult`. */
  class SyncResult {
    var groups: seq<Group>

    constructor ()
      ensures groups == []
    {
      groups := [];
    }
  }

  /** The outside world as the walk sees it, with the calls made on it so far. */
  class Environment {
    const world: World
    var calls: seq<Call>

    constructor (world: World)
      ensures this.world == world && calls == []
    {
      this.world := world;
      calls := [];
    }

    method TryLoadSchema(path: string) returns (s: Option<ChallengeConfig>)
      modifies this
      ensures s == world.schemas(path) && calls == old(calls) + [LoadSchema(path)]
    {
      calls := calls + [LoadSchema(path)];
      s := world.schemas(path);
    }

    method DeployChallenge(path: string) returns (r: Result<DeployOutcome, Error>)
      ensures r == world.deployments(path)
    {
      r := world.deployments(path);
    }

    method RenderTemplate(item: ChallengeItem) returns (description: string)
      ensures description == world.describe(item)
    {
      description := world.describe(item);
    }

    method MakeTarGzFile(archive: string, files: seq<string>)
      modifies this
      ensures calls == old(calls) + [MakeTarGz(archive, files)]
    {
      calls := calls + [MakeTarGz(archive, files)];
    }

    method ProviderSync(p: Provider, item: ChallengeItem, archive: Option<string>, description: string)
      modifies this
      ensures calls == old(calls) + [SyncChallengeCall(p, ChallengeId(item.category, item.name), archive, description)]
    {
      calls := calls + [SyncChallengeCall(p, ChallengeId(item.category, item.name), archive, description)];
    }

    method ProviderSetup(p: Provider)
      modifies this
      ensures calls == old(calls) + [Setup(p)]
    {
      calls := calls + [Setup(p)];
    }

    method LoadKubeconfigCall(cluster: string)
      modifies this
      ensures calls == old(calls) + [Activate(cluster)]
    {
      calls := calls + [Activate(cluster)];
    }
  }

  /** The provider loop of `sync_challenge`: for each provider, `sync_challenge` and then `setup`. */
  method SyncWithProviders(env: Environment, ps: seq<Provider>, chal: ChallengeItem, archive: Option<string>, description: string)
    modifies env
    ensures env.calls == old(env.calls) + ProviderCalls(ps, ChallengeId(chal.category, chal.name), archive, description)
  {
    ghost var before := env.calls;
    for j := 0 to |ps|
      invariant env.calls == before + ProviderCalls(ps[..j], ChallengeId(chal.category, chal.name), archive, description)
    {
      assert ps[..j + 1][..j] == ps[..j];
      env.ProviderSync(ps[j], chal, archive, description);
      env.ProviderSetup(ps[j]);
    }
    assert ps[..|ps|] == ps;
  }

  /** One challenge item: render, pack the attachments if there are any, hand it to the providers. */
  method SyncItem(env: Environment, ps: seq<Provider>, path: string, chal: ChallengeItem) returns (out: SynchronizedChallenge)
    modifies env
    ensures env.calls == old(env.calls) + ItemCalls(env.world, ps, path, chal)
    ensures out == SynchronizedChallenge(env.world.describe(chal), AttachmentPaths(path, chal.attachments))
  {
    var description := env.RenderTemplate(chal);
    var attachments := AttachmentPaths(path, chal.attachments);
    var archive: Option<string> := None;
    if |chal.attachments| > 0 {
      archive := Some(Join(env.world.tmp, ChallengeId(chal.category, chal.name) + ".tar.gz"));
      env.MakeTarGzFile(archive.value, attachments);
    }
    SyncWithProviders(env, ps, chal, archive, description);
    out := SynchronizedChallenge(description, attachments);
  }

  /** The loop over the challenge items of `sync_challenge`. */
  method SyncItems(env: Environment, ps: seq<Provider>, path: string, challenges: seq<ChallengeItem>)
    returns (synced: seq<SynchronizedChallenge>)
    modifies env
    ensures env.calls == old(env.calls) + ChallengesS(env.world, ps, path, challenges).calls
    ensures synced == ChallengesS(env.world, ps, path, challenges).synced
  {
    synced := [];
    ghost var start := env.calls;
    for i := 0 to |challenges|
      invariant env.calls == start + ChallengesS(env.world, ps, path, challenges[..i]).calls
      invariant synced == ChallengesS(env.world, ps, path, challenges[..i]).synced
    {
      assert challenges[..i + 1][..i] == challenges[..i];
      var out := SyncItem(env, ps, path, challenges[i]);
      synced := synced + [out];
    }
    assert challenges[..|challenges|] == challenges;
  }

  /** `sync_challenge`: deploy, discover endpoints, then hand every challenge to every provider. */
  method SyncChallenge(env: Environment, result: SyncResult, config: GlobalConfig, path: string, challenge: ChallengeConfig)
    returns (r: Result<(), Error>)
    modifies env, result
    ensures Progress(result.groups, env.calls, ErrOf(r)) ==
            SyncChallengeS(env.world, config, Progress(old(result.groups), old(env.calls), None), path, challenge)
  {
    if challenge.skip {
      return Ok(());
    }
    var deployment := env.DeployChallenge(path);
    if deployment.Err? {
      return Err(deployment.error);
    }
    var discovered := ManifestDiscovery.DiscoverDeployedEndpoints(config, challenge, deployment.value.deployed);
    if discovered.Err? {
      return Err(discovered.error);
    }
    var synced := SyncItems(env, Providers(config), path, discovered.value.challenges);
    result.groups := result.groups + [Group(deployment.value, synced)];
    r := Ok(());
  }

  /** `try_discover_challenges`. */
  method TryDiscoverChallenges(env: Environment, result: SyncResult, config: GlobalConfig, node: Node, depth: int, isRoot: bool)
    returns (r: Result<(), Error>)
    modifies env, result
    ensures Progress(result.groups, env.calls, ErrOf(r)) ==
            WalkS(env.world, config, Progress(old(result.groups), old(env.calls), None), node, depth, isRoot)
    decreases node
  {
    if depth > config.discovery.challengeFolderDepth {
      return Ok(());
    }
    r := ProbeNode(env, result, config, node, isRoot);
    if r.Err? {
      return;
    }
    if node.File? {
      return Err(NotADirectory(node.path));
    }
    var entries := node.entries;
    ghost var loaded := Progress(result.groups, env.calls, None);
    for i := 0 to |entries|
      invariant Progress(result.groups, env.calls, None) == ChildrenS(env.world, config, loaded, entries[..i], depth + 1)
    {
      assert entries[..i + 1][..i] == entries[..i];
      var item := entries[i];
      if item.File? {
        continue;
      }
      r := TryDiscoverChallenges(env, result, config, item, depth + 1, false);
      if r.Err? {
        ChildrenStopped(env.world, config, loaded, entries, i + 1, depth + 1);
        return;
      }
    }
    assert entries[..|entries|] == entries;
    return Ok(());
  }

  /** The probe step of `try_discover_challenges`. */
  method ProbeNode(env: Environment, result: SyncResult, config: GlobalConfig, node: Node, isRoot: bool)
    returns (r: Result<(), Error>)
    modifies env, result
    ensures Progress(result.groups, env.calls, ErrOf(r)) ==
            Probe(env.world, config, Progress(old(result.groups), old(env.calls), None), node, isRoot)
  {
    r := Ok(());
    if !isRoot {
      var schema := env.TryLoadSchema(node.path);
      if schema.Some? {
        r := SyncChallenge(env, result, config, node.path, schema.value);
      }
    }
  }

  lemma {:induction false} ChildrenStopped(w: World, config: GlobalConfig, p: Progress, entries: seq<Node>, n: nat, depth: int)
    requires n <= |entries| && ChildrenS(w, config, p, entries[..n], depth).err.Some?
    ensures ChildrenS(w, config, p, entries, depth) == ChildrenS(w, config, p, entries[..n], depth)
    decreases |entries| - n
  {
    if n < |entries| {
      assert entries[..n + 1][..n] == entries[..n];
      ChildrenStopped(w, config, p, entries, n + 1, depth);
    } else {
      assert entries[..n] == entries;
    }
  }

  /** `next(iter(config.clusters.keys()))` when there is exactly one cluster. */
  ghost function OnlyKey(m: map<string, ClusterConfig>): (k: string)
    requires |m| == 1
    ensures k in m
  {
    assert m.Keys != {};
    var k :| k in m; k
  }

  lemma OnlyKeyUnique(m: map<string, ClusterConfig>, k: string)
    requires |m| == 1 && k in m
    ensures k == OnlyKey(m)
  {
    var j := OnlyKey(m);
    var rest := m.Keys - {j};
    assert m.Keys == {j} + rest && {j} * rest == {};
    assert |m.Keys| == |m|;
    assert |rest| == 0;
    assert k !in rest;
  }

  /** The calls `sync` makes before the walk: every provider's setup, then the activation. */
  ghost function Startup(config: GlobalConfig): seq<Call> {
    SetupCalls(Providers(config)) + (if |config.clusters| == 1 then [Activate(OnlyKey(config.clusters))] else [])
  }

  /** The setup loop of `sync`: every provider's `setup`, in provider order. */
  method SetupProviders(env: Environment, ps: seq<Provider>)
    modifies env
    ensures env.calls == old(env.calls) + SetupCalls(ps)
  {
    ghost var start := env.calls;
    for i := 0 to |ps|
      invariant env.calls == start + SetupCalls(ps[..i])
    {
      assert ps[..i + 1][..i] == ps[..i];
      env.ProviderSetup(ps[i]);
    }
    assert ps[..|ps|] == ps;
  }

  /** `load_kubeconfig(config, next(iter(config.clusters.keys())))` for the only cluster. */
  method ActivateOnlyCluster(env: Environment, config: GlobalConfig, kstate: KubernetesState, host: Host) returns (r: Result<LoadOutcome, Error>)
    requires |config.clusters| == 1
    modifies env, SecretObjects(config)`value
    ensures env.calls == old(env.calls) + [Activate(OnlyKey(config.clusters))]
    ensures r == old(LoadOutcomeS(kstate.lastLoadedCluster, config, OnlyKey(config.clusters), host))
  {
    var name :| name in config.clusters;
    OnlyKeyUnique(config.clusters, name);
    env.LoadKubeconfigCall(name);
    KubeconfigTargetWithin(config, name);
    r := kstate.LoadKubeconfig(config, name, host);
  }

  /** What activating the clusters yields: the only cluster's load, or a skip when there is not exactly one. */
  ghost function Activation(config: GlobalConfig, last: Option<string>, host: Host): Result<LoadOutcome, Error>
    reads SecretObjects(config)
  {
    if |config.clusters| == 1 then LoadOutcomeS(last, config, OnlyKey(config.clusters), host) else Ok(Skipped)
  }

  /** The part of `sync` before the walk: provider setup, then activation of the only cluster. */
  method Prelude(env: Environment, config: GlobalConfig, kstate: KubernetesState, host: Host)
    returns (r: Result<LoadOutcome, Error>)
    modifies env, SecretObjects(config)`value
    ensures env.calls == old(env.calls) + Startup(config)
    ensures r == old(Activation(config, kstate.lastLoadedCluster, host))
  {
    ghost var start := env.calls;
    SetupProviders(env, Providers(config));
    if |config.clusters| == 1 {
      r := ActivateOnlyCluster(env, config, kstate, host);
      ConcatAssoc(start, SetupCalls(Providers(config)), [Activate(OnlyKey(config.clusters))]);
    } else {
      r := Ok(Skipped);
      assert SetupCalls(Providers(config)) + [] == SetupCalls(Providers(config));
    }
  }

  /**
   * `sync`. With exactly one cluster configured, that cluster is activated (its failure stops
   * everything before the walk); then the tree is walked from the root, which is not itself
   * probed for a schema.
   */
  method Sync(root: Node, config: GlobalConfig, env: Environment, kstate: KubernetesState, host: Host)
    returns (r: Result<SyncResult, Error>)
    modifies env, SecretObjects(config)`value
    ensures var pre := old(env.calls) + Startup(config);
            var walk := WalkS(env.world, config, Progress([], pre, None), root, 0, true);
            var activation := old(Activation(config, kstate.lastLoadedCluster, host));
            if activation.Err? then r == Err(activation.error) && env.calls == pre
            else
              (r.Ok? <==> walk.err.None?) && env.calls == walk.calls &&
              (r.Ok? ==> fresh(r.value) && r.value.groups == walk.groups) &&
              (r.Err? ==> Some(r.error) == walk.err)
  {
    var result := new SyncResult();
    var activated := Prelude(env, config, kstate, host);
    if activated.Err? {
      return Err(activated.error);
    }
    var walked := TryDiscoverChallenges(env, result, config, root, 0, true);
    if walked.Err? {
      return Err(walked.error);
    }
    return Ok(result);
  }
}
