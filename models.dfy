/**
 * The configuration schema of kona/schema/models.py: challenge items and their endpoints,
 * the per-directory challenge configuration, secrets and the global configuration.
 * Only the members with logic are modelled; pydantic parsing itself is not.
 */
module Models {
  import opened Wrappers
  import opened Errors
  import opened Text

  // ---------------------------------------------------------------- endpoints

  datatype EndpointType = Http | Https | Socat | Nc | NcatSsl

  /** The string value of each `KonaEndpointType` member. */
  function TypeValue(t: EndpointType): string {
    match t
    case Http => "http"
    case Https => "https"
    case Socat => "socat"
    case Nc => "nc"
    case NcatSsl => "ncat-ssl"
  }

  datatype Endpoint = Endpoint(name: Option<string>, kind: EndpointType, endpoint: string, port: Option<int>)

  predicate HasName(e: Endpoint) {
    e.name.Some? && e.name.value != ""
  }

  predicate HasPort(e: Endpoint) {
    e.port.Some? && e.port.value != 0
  }

  /** `Endpoint.name_prefix`: a `name: ` label when the endpoint has a non-empty name. */
  function NamePrefix(e: Endpoint): (r: string)
    ensures r == "" <==> !HasName(e)
    ensures r != "" ==> |r| >= 2 && r[..|r| - 2] == e.name.value && r[|r| - 2..] == ": "
  {
    if HasName(e) then e.name.value + ": " else ""
  }

  /** `Endpoint.http_port_if_needed`: `:port` for a truthy port, nothing for None or 0. */
  function HttpPortIfNeeded(e: Endpoint): (r: string)
    ensures r == "" <==> !HasPort(e)
    ensures r != "" ==> r[0] == ':'
  {
    if HasPort(e) then ":" + IntToString(e.port.value) else ""
  }

  /** The port suffix of a truthy port, negative ones included, reads back as that port. */
  lemma HttpPortIfNeededReadsBack(e: Endpoint)
    requires HasPort(e)
    ensures ParseInt(HttpPortIfNeeded(e)[1..]) == e.port.value
  {
    assert HttpPortIfNeeded(e)[1..] == IntToString(e.port.value);
    ParseIntToString(e.port.value);
  }

  /** `Endpoint.http_endpoint`: `type://endpoint`, followed by `:port` only for a truthy port. */
  function HttpEndpoint(e: Endpoint): string {
    TypeValue(e.kind) + "://" + e.endpoint + HttpPortIfNeeded(e)
  }

  /** The text before the first ':' of a URL. */
  function SchemeOf(url: string): string {
    if |url| == 0 || url[0] == ':' then "" else [url[0]] + SchemeOf(url[1..])
  }

  lemma {:induction false} SchemeOfConcat(a: string, b: string)
    requires ':' !in a && |b| > 0 && b[0] == ':'
    ensures SchemeOf(a + b) == a
  {
    if |a| > 0 {
      assert (a + b)[1..] == a[1..] + b;
      SchemeOfConcat(a[1..], b);
    } else {
      assert a + b == b;
    }
  }

  /**
   * The URL built by `http_endpoint` names its scheme before "://", the endpoint right after
   * it, and ends with the port suffix; without a truthy port it is exactly `type://endpoint`.
   */
  lemma HttpEndpointParts(e: Endpoint)
    ensures SchemeOf(HttpEndpoint(e)) == TypeValue(e.kind)
    ensures var n := |TypeValue(e.kind)| + 3;
            HttpEndpoint(e)[..n] == TypeValue(e.kind) + "://"
            && HttpEndpoint(e)[n..n + |e.endpoint|] == e.endpoint
            && HttpEndpoint(e)[n + |e.endpoint|..] == HttpPortIfNeeded(e)
    ensures !HasPort(e) ==> HttpEndpoint(e) == TypeValue(e.kind) + "://" + e.endpoint
  {
    var t := TypeValue(e.kind);
    assert ':' !in t;
    SchemeOfConcat(t, "://" + e.endpoint + HttpPortIfNeeded(e));
    assert HttpEndpoint(e) == t + ("://" + e.endpoint + HttpPortIfNeeded(e));
  }

  // ---------------------------------------------------------------- challenge items

  datatype CtfdFlag = CtfdFlag(kind: string, flag: string)

  datatype Flags = Flags(rctf: string, ctfd: seq<CtfdFlag>)

  datatype ChallengeItem = ChallengeItem(
    category: string,
    name: string,
    author: string,
    description: string,
    attachments: seq<string>,
    flags: Flags,
    endpoints: seq<Endpoint>)

  /** `KonaChallengeItem.challenge_id`. */
  function ChallengeId(category: string, name: string): string {
    category + "_" + name
  }

  /** The position of the first `ch` in `s`, or `|s|` when there is none. */
  function IndexOf(s: string, ch: char): nat {
    if |s| == 0 || s[0] == ch then 0 else 1 + IndexOf(s[1..], ch)
  }

  lemma {:induction false} IndexOfAfter(a: string, ch: char, b: string)
    requires ch !in a
    ensures IndexOf(a + [ch] + b, ch) == |a|
  {
    if |a| > 0 {
      assert (a + [ch] + b)[1..] == a[1..] + [ch] + b;
      IndexOfAfter(a[1..], ch, b);
    }
  }

  /**
   * The identifier splits back into category and name at its first underscore, so two
   * challenges whose categories contain no underscore share an identifier only when they
   * share both category and name.
   */
  lemma ChallengeIdInjective(c1: string, n1: string, c2: string, n2: string)
    requires '_' !in c1 && '_' !in c2
    requires ChallengeId(c1, n1) == ChallengeId(c2, n2)
    ensures c1 == c2 && n1 == n2
  {
    var id := ChallengeId(c1, n1);
    IndexOfAfter(c1, '_', n1);
    IndexOfAfter(c2, '_', n2);
    assert c1 == id[..|c1|] == c2;
    assert n1 == id[|c1| + 1..] == n2;
  }

  /** `strip_description`: the stored description is the stripped input. */
  function StripDescription(v: string): (r: string)
    ensures r == [] || (!IsSpace(r[0]) && !IsSpace(r[|r| - 1]))
    ensures exists i: nat :: TrimmedAt(v, i, r)
  {
    Strip(v)
  }

  predicate FlagSet(f: Flags) {
    f.rctf != "" || |f.ctfd| > 0
  }

  /**
   * The validators of `KonaChallengeItem`, in pydantic's order: the description field
   * validator, then `flag_is_set`, which rejects an item with neither an rCTF nor a CTFd flag.
   */
  function ValidateChallengeItem(raw: ChallengeItem): (r: Result<ChallengeItem, Error>)
    ensures r.Ok? <==> FlagSet(raw.flags)
    ensures r.Ok? ==> r.value == raw.(description := Strip(raw.description))
    ensures r.Err? ==> r.error == NoFlag(ChallengeId(raw.category, raw.name))
  {
    var item := raw.(description := StripDescription(raw.description));
    if item.flags.rctf != "" || |item.flags.ctfd| > 0 then Ok(item)
    else Err(NoFlag(ChallengeId(item.category, item.name)))
  }

  /** Validation is stable: a validated item validates to itself. */
  lemma ValidateChallengeItemIdempotent(raw: ChallengeItem)
    requires ValidateChallengeItem(raw).Ok?
    ensures ValidateChallengeItem(ValidateChallengeItem(raw).value) == ValidateChallengeItem(raw)
  {
    StripIdempotent(raw.description);
  }

  // ---------------------------------------------------------------- challenge configuration

  const DEFAULT_TAG := "latest"

  datatype DockerImage = DockerImage(
    path: string,
    name: string,
    tag: string,
    registryName: Option<string>,
    buildArgs: map<string, string>,
    platform: Option<string>)

  /**
   * A manifest reference. The deployer reads `paths` (a list), although the schema
   * declares a single `path`; the model follows the deployer.
   */
  datatype KubernetesManifest = KubernetesManifest(paths: seq<string>, clusterName: Option<string>)

  datatype DeploymentConfig = DeploymentConfig(images: seq<DockerImage>, manifests: seq<KubernetesManifest>)

  datatype ChallengeConfig = ChallengeConfig(skip: bool, challenges: seq<ChallengeItem>, deployment: DeploymentConfig)

  // ---------------------------------------------------------------- secrets

  /** The process environment a secret is read from: files, environment variables, the root path. */
  datatype Host = Host(files: map<string, string>, envVars: map<string, string>, rootPath: string)

  function Provided(o: Option<string>): nat {
    if o.Some? then 1 else 0
  }

  /** `KonaSecret.exactly_one_of`: exactly one of `file_path`, `value`, `env` is given. */
  function SecretExactlyOneOf(filePath: Option<string>, value: Option<string>, env: Option<string>): (r: Result<(), Error>)
    ensures r.Ok? <==>
              (filePath.Some? && value.None? && env.None?)
              || (filePath.None? && value.Some? && env.None?)
              || (filePath.None? && value.None? && env.Some?)
    ensures r.Err? ==> r.error == NotExactlyOne
  {
    if Provided(filePath) + Provided(value) + Provided(env) != 1 then Err(NotExactlyOne) else Ok(())
  }

  /** A relative secret path (one starting with '.') is taken from the root path. */
  function ResolveSecretPath(filePath: string, host: Host): string {
    if |filePath| > 0 && filePath[0] == '.' then Join(host.rootPath, filePath) else filePath
  }

  /**
   * What `KonaSecret.loaded` returns for the given fields: the value if present, else the
   * file's content, else the environment variable's value.
   */
  function LoadSecret(value: Option<string>, filePath: Option<string>, env: Option<string>, host: Host): Result<string, Error> {
    if value.Some? then Ok(value.value)
    else if filePath.Some? then
      var p := ResolveSecretPath(filePath.value, host);
      if p !in host.files then Err(FileNotFound(p)) else Ok(host.files[p])
    else if env.Some? then
      if env.value !in host.envVars then Err(EnvNotSet(env.value)) else Ok(host.envVars[env.value])
    else Err(NoSecretSource)
  }

  /** The priority of `loaded`: value, then file path, then environment variable. */
  lemma LoadSecretPriority(value: Option<string>, filePath: Option<string>, env: Option<string>, host: Host)
    ensures value.Some? ==> LoadSecret(value, filePath, env, host) == Ok(value.value)
    ensures value.None? && filePath.Some? ==>
              var p := ResolveSecretPath(filePath.value, host);
              LoadSecret(value, filePath, env, host) == if p in host.files then Ok(host.files[p]) else Err(FileNotFound(p))
    ensures value.None? && filePath.None? && env.Some? ==>
              LoadSecret(value, filePath, env, host)
              == if env.value in host.envVars then Ok(host.envVars[env.value]) else Err(EnvNotSet(env.value))
    ensures value.None? && filePath.None? && env.None? ==> LoadSecret(value, filePath, env, host) == Err(NoSecretSource)
  {
  }

  /**
   * The priority as independence: a given value is returned without consulting the file
   * path, the environment variable or the host at all; a file path (with no value) is read
   * without consulting the environment variable or the host's environment; an environment
   * variable alone is read without consulting the host's files or root path.
   */
  lemma LoadSecretIgnoresLower(value: Option<string>, filePath: Option<string>, env: Option<string>, host: Host,
                               filePath2: Option<string>, env2: Option<string>, host2: Host)
    ensures value.Some? ==> LoadSecret(value, filePath, env, host) == LoadSecret(value, filePath2, env2, host2)
    ensures value.None? && filePath.Some? && host2.files == host.files && host2.rootPath == host.rootPath ==>
              LoadSecret(value, filePath, env, host) == LoadSecret(value, filePath, env2, host2)
    ensures value.None? && filePath.None? && host2.envVars == host.envVars ==>
              LoadSecret(value, filePath, env, host) == LoadSecret(value, filePath, env, host2)
  {
  }

  /**
   * A loaded secret is cached in `value`: loading again gives the same string whatever the
   * files and environment are by then.
   */
  lemma LoadSecretCached(value: Option<string>, filePath: Option<string>, env: Option<string>, host: Host, later: Host)
    requires LoadSecret(value, filePath, env, host).Ok?
    ensures var s := LoadSecret(value, filePath, env, host).value;
            LoadSecret(Some(s), filePath, env, later) == Ok(s)
  {
  }

  class KonaSecret {
    var filePath: Option<string>
    var value: Option<string>
    var env: Option<string>

    constructor (filePath: Option<string>, value: Option<string>, env: Option<string>)
      ensures this.filePath == filePath && this.value == value && this.env == env
    {
      this.filePath := filePath;
      this.value := value;
      this.env := env;
    }

    /** The `exactly_one_of` model validator, run on the current fields. */
    method ExactlyOneOf() returns (r: Result<(), Error>)
      ensures r.Ok? <==> Provided(filePath) + Provided(value) + Provided(env) == 1
    {
      r := SecretExactlyOneOf(filePath, value, env);
    }

    /** `KonaSecret.loaded`: reads the secret and caches a file or environment read in `value`. */
    method Loaded(host: Host) returns (r: Result<string, Error>)
      modifies this`value
      ensures r == LoadSecret(old(value), filePath, env, host)
      ensures value == if r.Ok? then Some(r.value) else old(value)
    {
      if value.Some? {
        return Ok(value.value);
      }
      if filePath.Some? {
        var p := ResolveSecretPath(filePath.value, host);
        if p !in host.files {
          return Err(FileNotFound(p));
        }
        value := Some(host.files[p]);
        return Ok(value.value);
      }
      if env.Some? {
        if env.value !in host.envVars {
          return Err(EnvNotSet(env.value));
        }
        value := Some(host.envVars[env.value]);
        return Ok(value.value);
      }
      return Err(NoSecretSource);
    }
  }

  datatype SecretOrValue = SecretOrValue(secret: Option<string>, value: Option<string>)

  /** `KonaSecretOrValue.exactly_one_of`: exactly one of `secret`, `value` is given. */
  function SecretOrValueExactlyOneOf(sv: SecretOrValue): (r: Result<(), Error>)
    ensures r.Ok? <==> (sv.secret.Some? != sv.value.Some?)
    ensures r.Err? ==> r.error == NotExactlyOne
  {
    if Provided(sv.secret) + Provided(sv.value) != 1 then Err(NotExactlyOne) else Ok(())
  }

  // ---------------------------------------------------------------- global configuration

  /**
   * `KonaDiscoveryConfig`. Besides `challenge_folder_depth` (default 3) the code reads
   * `klodd_domain`, `klodd_endpoint_name` and `attachment_analysis_depth`, which the schema
   * does not declare; they are fields here.
   */
  datatype DiscoveryConfig = DiscoveryConfig(
    challengeFolderDepth: int,
    kloddDomain: Option<string>,
    kloddEndpointName: Option<string>,
    attachmentAnalysisDepth: int)

  const DEFAULT_CHALLENGE_FOLDER_DEPTH := 3

  /**
   * `KonaKubernetesClusterConfig` (`incluster` defaults to true). `use_default` is read by
   * the loader but not declared by the schema; it is a field here.
   */
  datatype ClusterConfig = ClusterConfig(incluster: bool, kubeconfig: Option<SecretOrValue>, useDefault: bool)

  datatype Credentials = Credentials(baseUrl: string, token: SecretOrValue)

  datatype GlobalConfig = GlobalConfig(
    discovery: DiscoveryConfig,
    secrets: map<string, KonaSecret>,
    rctf: Option<Credentials>,
    ctfd: Option<Credentials>,
    registries: map<string, string>,
    clusters: map<string, ClusterConfig>)

  /** The secret object `load` may update: the named global secret, if there is one. */
  function SecretTarget(sv: SecretOrValue, config: GlobalConfig): set<KonaSecret> {
    if sv.secret.Some? && sv.secret.value in config.secrets then {config.secrets[sv.secret.value]} else {}
  }

  /** What `loaded` on each global secret would return now, by name. */
  function SecretLoads(config: GlobalConfig, host: Host): map<string, Result<string, Error>>
    reads config.secrets.Values
  {
    map n | n in config.secrets :: LoadSecret(config.secrets[n].value, config.secrets[n].filePath, config.secrets[n].env, host)
  }

  /** What `KonaSecretOrValue.load` returns, given what each global secret would load. */
  function SecretOrValueFrom(sv: SecretOrValue, loads: map<string, Result<string, Error>>): Result<string, Error> {
    if sv.secret.Some? then
      if sv.secret.value !in loads then Err(UnknownSecret(sv.secret.value)) else loads[sv.secret.value]
    else if sv.value.Some? then Ok(sv.value.value)
    else Err(NoSecretSource)
  }

  /** What `KonaSecretOrValue.load` returns, read from the current state of the secrets table. */
  function SecretOrValueLoad(sv: SecretOrValue, config: GlobalConfig, host: Host): Result<string, Error>
    reads config.secrets.Values
  {
    SecretOrValueFrom(sv, SecretLoads(config, host))
  }

  /**
   * `KonaSecretOrValue.load`: a named secret is loaded (and cached) through the global
   * secrets table; a missing name raises KeyError; otherwise the inline value is returned.
   */
  method LoadSecretOrValue(sv: SecretOrValue, config: GlobalConfig, host: Host) returns (r: Result<string, Error>)
    modifies SecretTarget(sv, config)`value
    ensures r == old(SecretOrValueLoad(sv, config, host))
    ensures sv.secret.Some? && sv.secret.value in config.secrets && r.Ok? ==>
              config.secrets[sv.secret.value].value == Some(r.value)
    ensures r.Err? ==> unchanged(SecretTarget(sv, config))
    ensures SecretLoads(config, host) == old(SecretLoads(config, host))
  {
    if sv.secret.Some? {
      if sv.secret.value !in config.secrets {
        return Err(UnknownSecret(sv.secret.value));
      }
      var s := config.secrets[sv.secret.value];
      r := s.Loaded(host);
      return;
    }
    if sv.value.Some? {
      return Ok(sv.value.value);
    }
    return Err(NoSecretSource);
  }
}
