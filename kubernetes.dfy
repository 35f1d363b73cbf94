/**
 * Cluster activation (kona/core/kubernetes.py): picks the credential source of a named
 * cluster and calls exactly one loader of the kubernetes client library.
 */
module Kubernetes {
  import opened Wrappers
  import opened Errors
  import opened Models

  /** The client-library loader a call invokes (foreign code, recorded by name). */
  datatype Loader = InClusterConfig | DefaultKubeConfig | KubeConfigText(text: string)

  datatype LoadOutcome = Skipped | Loaded(loader: Loader)

  /** Where a cluster's credentials come from. */
  datatype CredentialSource = FromKubeconfig(sv: SecretOrValue) | FromInCluster | FromDefault | NoSource

  /** The credential-source choice of `load_kubeconfig`. */
  function SelectSource(c: ClusterConfig): CredentialSource {
    if c.kubeconfig.None? then
      if c.incluster then FromInCluster
      else if c.useDefault then FromDefault
      else NoSource
    else FromKubeconfig(c.kubeconfig.value)
  }

  /**
   * A configured kubeconfig wins whatever `incluster` and `use_default` say; without one,
   * `incluster` wins over `use_default`, and with neither there is no source.
   */
  lemma SelectSourcePriority(c: ClusterConfig, incluster: bool, useDefault: bool)
    ensures c.kubeconfig.Some? ==>
              SelectSource(c.(incluster := incluster, useDefault := useDefault)) == FromKubeconfig(c.kubeconfig.value)
    ensures c.kubeconfig.None? && c.incluster ==> SelectSource(c.(useDefault := useDefault)) == FromInCluster
    ensures c.kubeconfig.None? && !c.incluster ==> (SelectSource(c) == FromDefault <==> c.useDefault)
    ensures SelectSource(c) == NoSource <==> c.kubeconfig.None? && !c.incluster && !c.useDefault
  {
  }

  /** The early return of `load_kubeconfig`: the requested cluster is the cached one. */
  predicate ShouldSkip(last: Option<string>, clusterName: string) {
    last.Some? && last.value == clusterName
  }

  /** The secret object loading the cluster's kubeconfig may update. */
  function KubeconfigTarget(config: GlobalConfig, clusterName: string): set<KonaSecret> {
    if clusterName in config.clusters && config.clusters[clusterName].kubeconfig.Some?
    then SecretTarget(config.clusters[clusterName].kubeconfig.value, config)
    else {}
  }

  /** The secrets loading a kubeconfig may cache into. */
  function SecretObjects(config: GlobalConfig): set<KonaSecret> {
    config.secrets.Values
  }

  lemma KubeconfigTargetWithin(config: GlobalConfig, clusterName: string)
    ensures KubeconfigTarget(config, clusterName) <= SecretObjects(config)
  {
    if clusterName in config.clusters && config.clusters[clusterName].kubeconfig.Some? {
      var sv := config.clusters[clusterName].kubeconfig.value;
      if sv.secret.Some? && sv.secret.value in config.secrets {
        assert config.secrets[sv.secret.value] in config.secrets.Values;
      }
    }
  }

  /** What `load_kubeconfig` returns, given the cached cluster name and what each global secret would load. */
  function LoadOutcomeFrom(last: Option<string>, config: GlobalConfig, loads: map<string, Result<string, Error>>, clusterName: string): Result<LoadOutcome, Error> {
    if ShouldSkip(last, clusterName) then Ok(Skipped)
    else if clusterName !in config.clusters then Err(UnknownCluster(clusterName))
    else match SelectSource(config.clusters[clusterName])
      case FromInCluster => Ok(Loaded(InClusterConfig))
      case FromDefault => Ok(Loaded(DefaultKubeConfig))
      case NoSource => Err(UnableToLoadConfig(clusterName))
      case FromKubeconfig(sv) =>
        var text := SecretOrValueFrom(sv, loads);
        if text.Ok? then Ok(Loaded(KubeConfigText(text.value))) else Err(text.error)
  }

  /** What `load_kubeconfig` returns, given the cached cluster name and the current secrets. */
  function LoadOutcomeS(last: Option<string>, config: GlobalConfig, clusterName: string, host: Host): Result<LoadOutcome, Error>
    reads config.secrets.Values
  {
    LoadOutcomeFrom(last, config, SecretLoads(config, host), clusterName)
  }

  /**
   * The process-wide `kubernetes_state`. Its `last_loaded_cluster` starts as None and no
   * code assigns it, so `LoadKubeconfig` does not modify this object.
   */
  class KubernetesState {
    var lastLoadedCluster: Option<string>

    constructor ()
      ensures lastLoadedCluster == None
    {
      lastLoadedCluster := None;
    }

    /** `load_kubeconfig(global_config, cluster_name)`. */
    method LoadKubeconfig(config: GlobalConfig, clusterName: string, host: Host) returns (r: Result<LoadOutcome, Error>)
      modifies KubeconfigTarget(config, clusterName)`value
      ensures ShouldSkip(lastLoadedCluster, clusterName) ==> r == Ok(Skipped)
      ensures !ShouldSkip(lastLoadedCluster, clusterName) && clusterName !in config.clusters ==>
                r == Err(UnknownCluster(clusterName))
      ensures !ShouldSkip(lastLoadedCluster, clusterName) && clusterName in config.clusters ==>
                match SelectSource(config.clusters[clusterName])
                case FromInCluster => r == Ok(Loaded(InClusterConfig))
                case FromDefault => r == Ok(Loaded(DefaultKubeConfig))
                case NoSource => r == Err(UnableToLoadConfig(clusterName))
                case FromKubeconfig(sv) =>
                  var text := old(SecretOrValueLoad(sv, config, host));
                  r == if text.Ok? then Ok(Loaded(KubeConfigText(text.value))) else Err(text.error)
      ensures lastLoadedCluster.None? ==> r != Ok(Skipped)
      ensures r == old(LoadOutcomeS(lastLoadedCluster, config, clusterName, host))
      ensures SecretLoads(config, host) == old(SecretLoads(config, host))
    {
      if lastLoadedCluster.Some? && lastLoadedCluster.value == clusterName {
        return Ok(Skipped);
      }
      if clusterName !in config.clusters {
        return Err(UnknownCluster(clusterName));
      }
      var cluster := config.clusters[clusterName];
      if cluster.kubeconfig.None? {
        if cluster.incluster {
          return Ok(Loaded(InClusterConfig));
        }
        if cluster.useDefault {
          return Ok(Loaded(DefaultKubeConfig));
        }
        return Err(UnableToLoadConfig(clusterName));
      }
      var text := LoadSecretOrValue(cluster.kubeconfig.value, config, host);
      if text.Err? {
        return Err(text.error);
      }
      return Ok(Loaded(KubeConfigText(text.value)));
    }
  }
}
