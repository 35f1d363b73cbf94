/**
 * kona/core/deployment.py: building and pushing a challenge's docker images, and applying
 * its Kubernetes manifests with the create / server-side-apply / force / recreate ladder.
 *
 * Every step that talks to the cluster is a method on `KubeApi.Cluster`, and each such
 * method is tied by its `ensures` to a pure function of the cluster's state before the call
 * (`UpsertS`, `RecreateS`, ...). What the deployer promises is proved about those functions
 * in module DeploymentProofs.
 */
module Deployment {
  import opened Wrappers
  import opened Json
  import opened Errors
  import opened Text
  import opened Models
  import opened KubeApi
  import opened Kubernetes

  const DEFAULT_NAMESPACE := "default"
  const CRD_API_VERSION := "apiextensions.k8s.io/v1"
  const CRD_KIND := "CustomResourceDefinition"
  const CRD_TYPE := TypeKey(Str(CRD_API_VERSION), Str(CRD_KIND))
  /** `k8s_wait_absent` polls once a second for 120 seconds. */
  const ABSENT_POLLS := 120
  /** `k8s_wait_crd_established` polls every half second for 120 seconds. */
  const CRD_POLLS := 240

  // ---------------------------------------------------------------- actions

  /** What applying one manifest item did to the cluster. */
  datatype Action = Created | Updated | UpdatedForce | Unchanged | Recreated

  /** The `_action` strings the deployer records. */
  function ActionName(a: Action): string {
    match a
    case Created => "created"
    case Updated => "updated"
    case UpdatedForce => "updated(force)"
    case Unchanged => "unchanged"
    case Recreated => "recreated"
  }

  /** Reads a recorded `_action` value back. */
  function ParseAction(v: Value): (r: Option<Action>)
    ensures r.Some? ==> v == Str(ActionName(r.value))
  {
    if v == Str("created") then Some(Created)
    else if v == Str("updated") then Some(Updated)
    else if v == Str("updated(force)") then Some(UpdatedForce)
    else if v == Str("unchanged") then Some(Unchanged)
    else if v == Str("recreated") then Some(Recreated)
    else None
  }

  /** The record appended for an applied item: a copy of the item with `_action` set. */
  function Enrich(item: Dict, a: Action): Dict {
    item["_action" := Str(ActionName(a))]
  }

  /** `record` is what the deployer appends for `item`, whatever the action was. */
  predicate RecordOf(record: Dict, item: Dict) {
    ParseAction(Get(record, "_action")).Some? && record == Enrich(item, ParseAction(Get(record, "_action")).value)
  }

  // ---------------------------------------------------------------- manifest documents

  /** `k8s_is_crd`. A CRD always has the apiVersion and kind the required-fields check asks for. */
  predicate IsCrd(doc: Dict)
    ensures IsCrd(doc) ==> (Validate(doc).Ok? <==> MetaOf(doc).Object? && Truthy(Get(MetaOf(doc).fields, "name")))
  {
    Get(doc, "apiVersion") == Str(CRD_API_VERSION) && Get(doc, "kind") == Str(CRD_KIND)
  }

  /** `document.get('metadata') or {}`. */
  function MetaOf(doc: Dict): Value {
    Or(Get(doc, "metadata"), Object(map[]))
  }

  /** What `k8s_upsert_manifest` reads from a document before it contacts the cluster. */
  datatype Coordinates = Coordinates(apiVersion: Value, kind: Value, meta: Dict, name: Value)

  /**
   * The checks at the top of `k8s_upsert_manifest`: a truthy `metadata` that is not a dict
   * fails on `.get` before anything else; then apiVersion, kind and metadata.name must all
   * be truthy.
   */
  function Validate(doc: Dict): (r: Result<Coordinates, Error>)
    ensures r == Err(NotADict) <==> !MetaOf(doc).Object?
    ensures r == Err(MissingRequiredFields) <==>
              MetaOf(doc).Object? &&
              !(Truthy(Get(doc, "apiVersion")) && Truthy(Get(doc, "kind")) && Truthy(Get(MetaOf(doc).fields, "name")))
    ensures r.Ok? ==>
              "apiVersion" in doc && r.value.apiVersion == doc["apiVersion"] && Truthy(r.value.apiVersion) &&
              "kind" in doc && r.value.kind == doc["kind"] && Truthy(r.value.kind) &&
              "metadata" in doc && doc["metadata"] == Object(r.value.meta) &&
              "name" in r.value.meta && r.value.name == r.value.meta["name"] && Truthy(r.value.name)
  {
    var meta := MetaOf(doc);
    if !meta.Object? then Err(NotADict)
    else
      var apiVersion := Get(doc, "apiVersion");
      var kind := Get(doc, "kind");
      var name := Get(meta.fields, "name");
      if !Truthy(apiVersion) || !Truthy(kind) || !Truthy(name) then Err(MissingRequiredFields)
      else Ok(Coordinates(apiVersion, kind, meta.fields, name))
  }

  /**
   * `k8s_build_kwargs`: a namespaced type gets the document's namespace, or `default` when
   * that is missing or falsy; a cluster-scoped type gets none.
   */
  function Namespace(namespaced: bool, meta: Dict): (r: Option<Value>)
    ensures r.Some? <==> namespaced
    ensures r.Some? ==> Truthy(r.value)
    ensures r.Some? && Truthy(Get(meta, "namespace")) ==> r.value == meta["namespace"]
    ensures r.Some? && !Truthy(Get(meta, "namespace")) ==> r.value == Str(DEFAULT_NAMESPACE)
  {
    if namespaced then Some(Or(Get(meta, "namespace"), Str(DEFAULT_NAMESPACE))) else None
  }

  function KeyFor(c: Coordinates, namespaced: bool): Key {
    Key(c.apiVersion, c.kind, Namespace(namespaced, c.meta), c.name)
  }

  /**
   * `(obj.get('metadata') or {}).get('resourceVersion')` on an object the API returned;
   * such an object always has a dict `metadata` (see `RenderedVersion`).
   */
  function ResourceVersion(obj: Dict): Value {
    var meta := Or(Get(obj, "metadata"), Object(map[]));
    if meta.Object? then Get(meta.fields, "resourceVersion") else Null
  }

  /** The version the API reports for an object is the one it stores. */
  lemma RenderedVersion(o: Stored)
    ensures ResourceVersion(Render(o)) == Int(o.rv)
  {
    var meta := if "metadata" in o.body && o.body["metadata"].Object? then o.body["metadata"].fields else map[];
    assert Render(o)["metadata"] == Object(meta["resourceVersion" := Int(o.rv)]);
  }

  /** The verdict of a successful non-forced apply: unchanged exactly when the version did not move. */
  function PatchAction(preRv: Value, patched: Dict): Action {
    if preRv != Null && ResourceVersion(patched) == preRv then Unchanged else Updated
  }

  function IsList(doc: Dict): bool {
    Get(doc, "kind") == Str("List") && Get(doc, "items").List?
  }

  /** The dict entries of a list, in order. */
  function DictItems(items: seq<Value>): seq<Dict> {
    if |items| == 0 then []
    else (if items[0].Object? then [items[0].fields] else []) + DictItems(items[1..])
  }

  /**
   * `k8s_expand_manifest` on one parsed YAML document: a document that is not a dict fails
   * on `.get`; a `List` with a list of items yields its dict items; anything else yields itself.
   */
  function Expand(doc: Value): (r: Result<seq<Dict>, Error>)
    ensures r.Err? <==> !doc.Object?
    ensures doc.Object? && !IsList(doc.fields) ==> r == Ok([doc.fields])
  {
    if !doc.Object? then Err(NotADict)
    else if IsList(doc.fields) then Ok(DictItems(doc.fields["items"].items))
    else Ok([doc.fields])
  }

  /** Every item the documents expand to, in order; a document that fails to expand contributes none. */
  function ItemsOf(docs: seq<Value>): seq<Dict> {
    if |docs| == 0 then []
    else ItemsOf(docs[..|docs| - 1]) + (var e := Expand(docs[|docs| - 1]); if e.Ok? then e.value else [])
  }

  // ---------------------------------------------------------------- CRD conditions

  /**
   * `d.get('status', {}).get('conditions') or []`, iterated: a list gives its entries; a
   * non-empty string or dict iterates to strings, and `.get` on the first one fails; any
   * other truthy value is not iterable.
   */
  function ConditionList(obj: Dict): Result<seq<Value>, Error> {
    var status := GetOr(obj, "status", Object(map[]));
    if !status.Object? then Err(NotADict)
    else
      var conds := Or(Get(status.fields, "conditions"), List([]));
      if conds.List? then Ok(conds.items)
      else if conds.Str? || conds.Object? then Err(NotADict)
      else Err(NotIterable)
  }

  /** A value Python can use as a dict key: anything but a list or a dict. */
  predicate Hashable(v: Value) {
    !v.List? && !v.Object?
  }

  /**
   * `{c.get('type'): c.get('status') for c in conds}`: later conditions override earlier ones;
   * a condition that is not a dict fails on `.get`, and one whose type is a list or a dict
   * cannot be a key.
   */
  function ConditionMap(conds: seq<Value>): Result<map<Value, Value>, Error> {
    if |conds| == 0 then Ok(map[])
    else
      match ConditionMap(conds[..|conds| - 1])
      case Err(e) => Err(e)
      case Ok(m) =>
        var c := conds[|conds| - 1];
        if !c.Object? then Err(NotADict)
        else if !Hashable(Get(c.fields, "type")) then Err(Unhashable)
        else Ok(m[Get(c.fields, "type") := Get(c.fields, "status")])
  }

  function Lookup(m: map<Value, Value>, k: Value, default: Value): Value {
    if k in m then m[k] else default
  }

  /** Established is `True`, and NamesAccepted, when reported, is not `False`. */
  function CrdReady(obj: Dict): Result<bool, Error> {
    var conds :- ConditionList(obj);
    var m :- ConditionMap(conds);
    Ok(Lookup(m, Str("Established"), Null) == Str("True") && Lookup(m, Str("NamesAccepted"), Str("True")) != Str("False"))
  }

  /** `item['metadata']['name']`, read only once the item has been applied. */
  function CrdName(item: Dict): Value {
    var v := Validate(item);
    if v.Ok? then v.value.name else Null
  }

  /**
   * What propagates out of the `except` handler around an upsert: the handler itself calls
   * `item.get("metadata", {}).get("name")`, which raises AttributeError when `metadata` is
   * present but not a dict.
   */
  function Reported(item: Dict, e: Error): (r: Error)
    ensures Validate(item).Ok? ==> r == e
    ensures "metadata" in item && !item["metadata"].Object? ==> r == NotADict
  {
    if "metadata" in item && !item["metadata"].Object? then NotADict else e
  }

  // ---------------------------------------------------------------- the reconcile ladder

  /** The state after a step against the cluster and what the step returned or raised. */
  datatype Outcome<T> = Outcome(state: State, result: Result<T, Error>)

  /** The key a document is applied under, when it validates and its type is discoverable. */
  function Target(s: State, doc: Dict): Option<Key> {
    match Validate(doc)
    case Err(_) => None
    case Ok(c) =>
      match ResolveS(s, TypeKey(c.apiVersion, c.kind))
      case None => None
      case Some(namespaced) => Some(KeyFor(c, namespaced))
  }

  /** `k8s_resource_exists`: 404 means absent, any other failure is re-raised. */
  function ExistsS(s: State, k: Key): Outcome<bool> {
    var g := GetS(s, k);
    Outcome(g.state,
      if g.result.Ok? then Ok(true)
      else if g.result.error == NOT_FOUND then Ok(false)
      else Err(ApiFailure(g.result.error)))
  }

  /** `k8s_try_patch_manifest` never raises: every failure becomes None. */
  datatype Attempt = Attempt(state: State, result: Option<(Action, Dict)>)

  /** An apply; on a 409 one forced apply; any other failure gives up. */
  function TryPatchS(s: State, k: Key, doc: Dict, preRv: Value): Attempt {
    var p := PatchS(s, k, doc, false);
    if p.result.Ok? then Attempt(p.state, Some((PatchAction(preRv, p.result.value), p.result.value)))
    else if p.result.error == CONFLICT then
      var f := PatchS(p.state, k, doc, true);
      Attempt(f.state, if f.result.Ok? then Some((UpdatedForce, f.result.value)) else None)
    else Attempt(p.state, None)
  }

  /**
   * `k8s_wait_absent` with `fuel` polls left: returns at the first 404, swallows every other
   * failure, and sleeps between polls; running out of polls is the timeout.
   */
  function WaitAbsentS(s: State, k: Key, fuel: nat): Outcome<()>
    decreases fuel
  {
    if fuel == 0 then Outcome(s, Err(Timeout))
    else
      var g := GetS(s, k);
      if g.result.Err? && g.result.error == NOT_FOUND then Outcome(g.state, Ok(()))
      else WaitAbsentS(SleepS(g.state), k, fuel - 1)
  }

  /** `k8s_recreate_manifest`: delete (absent is fine), wait until gone, create. */
  function RecreateS(s: State, k: Key, doc: Dict): Outcome<Dict> {
    var d := DeleteS(s, k);
    if d.result.Err? && d.result.error != NOT_FOUND then Outcome(d.state, Err(ApiFailure(d.result.error)))
    else
      var w := WaitAbsentS(d.state, k, ABSENT_POLLS);
      if w.result.Err? then Outcome(w.state, Err(w.result.error))
      else
        var c := CreateS(w.state, k, doc);
        Outcome(c.state, if c.result.Ok? then Ok(c.result.value) else Err(ApiFailure(c.result.error)))
  }

  /** `k8s_upsert_manifest`. */
  function UpsertS(s: State, doc: Dict): Outcome<(Action, Dict)> {
    match Validate(doc)
    case Err(e) => Outcome(s, Err(e))
    case Ok(c) =>
      match ResolveS(s, TypeKey(c.apiVersion, c.kind))
      case None => Outcome(s, Err(UnknownResource(c.apiVersion, c.kind)))
      case Some(namespaced) =>
        var k := KeyFor(c, namespaced);
        var ex := ExistsS(s, k);
        if ex.result.Err? then Outcome(ex.state, Err(ex.result.error))
        else if !ex.result.value then
          var cr := CreateS(ex.state, k, doc);
          Outcome(cr.state, if cr.result.Ok? then Ok((Created, cr.result.value)) else Err(ApiFailure(cr.result.error)))
        else
          var cur := GetS(ex.state, k);
          if cur.result.Err? then Outcome(cur.state, Err(ApiFailure(cur.result.error)))
          else
            var p := TryPatchS(cur.state, k, doc, ResourceVersion(cur.result.value));
            if p.result.Some? then Outcome(p.state, Ok(p.result.value))
            else
              var rc := RecreateS(p.state, k, doc);
              Outcome(rc.state, if rc.result.Ok? then Ok((Recreated, rc.result.value)) else Err(rc.result.error))
  }

  /** The polling loop of `k8s_wait_crd_established`; a failed get is not caught. */
  function PollCrdS(s: State, k: Key, fuel: nat): Outcome<()>
    decreases fuel
  {
    if fuel == 0 then Outcome(s, Err(Timeout))
    else
      var g := GetS(s, k);
      if g.result.Err? then Outcome(g.state, Err(ApiFailure(g.result.error)))
      else
        match CrdReady(g.result.value)
        case Err(e) => Outcome(g.state, Err(e))
        case Ok(ready) => if ready then Outcome(g.state, Ok(())) else PollCrdS(SleepS(g.state), k, fuel - 1)
  }

  /** `k8s_wait_crd_established`: the CRD type itself must be discoverable. */
  function WaitCrdS(s: State, name: Value, fuel: nat): Outcome<()> {
    if ResolveS(s, CRD_TYPE).None? then Outcome(s, Err(ResourceNotFound(Str(CRD_API_VERSION), Str(CRD_KIND))))
    else PollCrdS(s, Key(Str(CRD_API_VERSION), Str(CRD_KIND), None, name), fuel)
  }

  /**
   * One item of the apply loop: upsert; after a CRD that changed, wait until it is
   * established and refresh discovery; the record is the enriched item.
   */
  function ApplyItemS(s: State, item: Dict): Outcome<Dict> {
    var u := UpsertS(s, item);
    if u.result.Err? then Outcome(u.state, Err(Reported(item, u.result.error)))
    else
      var action := u.result.value.0;
      if IsCrd(item) && action != Unchanged then
        var w := WaitCrdS(u.state, CrdName(item), CRD_POLLS);
        if w.result.Err? then Outcome(w.state, Err(w.result.error))
        else Outcome(RefreshS(w.state), Ok(Enrich(item, action)))
      else Outcome(u.state, Ok(Enrich(item, action)))
  }

  /** The apply loop's progress: cluster state, records appended so far, and the error that stopped it. */
  datatype Run = Run(state: State, records: seq<Dict>, err: Option<Error>)

  function StepItem(r: Run, item: Dict): Run {
    if r.err.Some? then r
    else
      var o := ApplyItemS(r.state, item);
      if o.result.Ok? then Run(o.state, r.records + [o.result.value], None) else Run(o.state, r.records, Some(o.result.error))
  }

  /** The apply loop over a sequence of items. */
  function Feed(r: Run, items: seq<Dict>): Run
    decreases |items|
  {
    if |items| == 0 then r else StepItem(Feed(r, items[..|items| - 1]), items[|items| - 1])
  }

  function StepDoc(r: Run, doc: Value): Run {
    if r.err.Some? then r
    else
      match Expand(doc)
      case Err(e) => r.(err := Some(e))
      case Ok(items) => Feed(r, items)
  }

  /** The apply loop over the parsed documents of one manifest. */
  function FeedDocs(r: Run, docs: seq<Value>): Run
    decreases |docs|
  {
    if |docs| == 0 then r else StepDoc(FeedDocs(r, docs[..|docs| - 1]), docs[|docs| - 1])
  }

  lemma {:induction false} FeedStopped(r: Run, items: seq<Dict>)
    requires r.err.Some?
    ensures Feed(r, items) == r
    decreases |items|
  {
    if |items| > 0 {
      FeedStopped(r, items[..|items| - 1]);
    }
  }

  lemma {:induction false} FeedAppend(r: Run, a: seq<Dict>, b: seq<Dict>)
    ensures Feed(r, a + b) == Feed(Feed(r, a), b)
    decreases |b|
  {
    if |b| == 0 {
      assert a + b == a;
    } else {
      assert (a + b)[..|a + b| - 1] == a + b[..|b| - 1];
      FeedAppend(r, a, b[..|b| - 1]);
    }
  }

  lemma {:induction false} FeedDocsStopped(r: Run, docs: seq<Value>)
    requires r.err.Some?
    ensures FeedDocs(r, docs) == r
    decreases |docs|
  {
    if |docs| > 0 {
      FeedDocsStopped(r, docs[..|docs| - 1]);
    }
  }

  lemma {:induction false} FeedDocsAppend(r: Run, a: seq<Value>, b: seq<Value>)
    ensures FeedDocs(r, a + b) == FeedDocs(FeedDocs(r, a), b)
    decreases |b|
  {
    if |b| == 0 {
      assert a + b == a;
    } else {
      assert (a + b)[..|a + b| - 1] == a + b[..|b| - 1];
      FeedDocsAppend(r, a, b[..|b| - 1]);
    }
  }

  /** The documents of a manifest: each path, relative to the challenge directory, parsed in order. */
  function DocsOf(path: string, paths: seq<string>, documents: string -> seq<Value>): seq<Value> {
    if |paths| == 0 then [] else DocsOf(path, paths[..|paths| - 1], documents) + documents(Join(path, paths[|paths| - 1]))
  }

  /** A manifest needs an explicit cluster unless exactly one cluster is configured. */
  predicate NamesCluster(m: KubernetesManifest) {
    m.clusterName.Some? && m.clusterName.value != ""
  }

  predicate ClusterRuleHolds(clustersCount: nat, m: KubernetesManifest) {
    clustersCount == 1 || NamesCluster(m)
  }

  // ---------------------------------------------------------------- docker images

  /** A docker call the deployer made. */
  datatype DockerOp =
    | Build(contextDir: string, ref: string, buildArgs: map<string, string>, platform: Option<string>)
    | Push(repository: string, tag: string)

  /**
   * Which builds (by ref) and pushes (by repository and tag) make the docker client raise.
   * A refusal reported only inside the push's log stream raises nothing, so it is not one.
   */
  datatype Daemon = Daemon(brokenBuilds: set<string>, brokenPushes: set<(string, string)>)

  predicate HasRegistry(img: DockerImage) {
    img.registryName.Some? && img.registryName.value != ""
  }

  /**
   * The repository an image is tagged into: a registry name must resolve to a non-empty
   * registry, whose trailing slashes are dropped before `/name`; without a registry it is
   * the bare name.
   */
  function Repository(img: DockerImage, registries: map<string, string>): (r: Result<string, Error>)
    ensures r.Err? <==> HasRegistry(img) && (img.registryName.value !in registries || registries[img.registryName.value] == "")
    ensures r.Err? ==> r.error == UnknownRegistry(img.registryName.value, img.name, img.tag)
    ensures r.Ok? && !HasRegistry(img) ==> r.value == img.name
    ensures r.Ok? && HasRegistry(img) ==>
              var reg := RStrip(registries[img.registryName.value], '/');
              r.value == reg + "/" + img.name && (|reg| == 0 || reg[|reg| - 1] != '/')
  {
    if HasRegistry(img) then
      var name := img.registryName.value;
      if name !in registries || registries[name] == "" then Err(UnknownRegistry(name, img.name, img.tag))
      else Ok(RStrip(registries[name], '/') + "/" + img.name)
    else Ok(img.name)
  }

  function FullRef(repository: string, tag: string): string {
    repository + ":" + tag
  }

  /** The image loop's progress: docker calls made, refs pushed, and the error that stopped it. */
  datatype ImageRun = ImageRun(ops: seq<DockerOp>, refs: seq<string>, err: Option<Error>)

  function StepImage(r: ImageRun, img: DockerImage, registries: map<string, string>, path: string, daemon: Daemon): ImageRun {
    if r.err.Some? then r
    else
      match Repository(img, registries)
      case Err(e) => r.(err := Some(e))
      case Ok(repo) =>
        var ref := FullRef(repo, img.tag);
        var ops := r.ops + [Build(Join(path, img.path), ref, img.buildArgs, img.platform)];
        if ref in daemon.brokenBuilds then ImageRun(ops, r.refs, Some(BuildFailed(ref)))
        else if !HasRegistry(img) then ImageRun(ops, r.refs, None)
        else if (repo, img.tag) in daemon.brokenPushes then ImageRun(ops + [Push(repo, img.tag)], r.refs, Some(PushFailed(repo, img.tag)))
        else ImageRun(ops + [Push(repo, img.tag)], r.refs + [ref], None)
  }

  /** `docker_build_images` over the image list. */
  function ImagesS(images: seq<DockerImage>, registries: map<string, string>, path: string, daemon: Daemon): ImageRun
    decreases |images|
  {
    if |images| == 0 then ImageRun([], [], None)
    else StepImage(ImagesS(images[..|images| - 1], registries, path, daemon), images[|images| - 1], registries, path, daemon)
  }

  /** The docker client: the calls made so far, and whether `docker_env()` was ever created. */
  class Docker {
    var ops: seq<DockerOp>
    var connected: bool
    const daemon: Daemon

    constructor (daemon: Daemon)
      ensures ops == [] && !connected && this.daemon == daemon
    {
      ops, connected, this.daemon := [], false, daemon;
    }

    method Connect()
      modifies this
      ensures connected && ops == old(ops)
    {
      connected := true;
    }

    method BuildImage(contextDir: string, ref: string, buildArgs: map<string, string>, platform: Option<string>)
      returns (ok: bool)
      modifies this
      ensures ops == old(ops) + [Build(contextDir, ref, buildArgs, platform)] && connected == old(connected)
      ensures ok <==> ref !in daemon.brokenBuilds
    {
      ops := ops + [Build(contextDir, ref, buildArgs, platform)];
      ok := ref !in daemon.brokenBuilds;
    }

    method PushImage(repository: string, tag: string) returns (ok: bool)
      modifies this
      ensures ops == old(ops) + [Push(repository, tag)] && connected == old(connected)
      ensures ok <==> (repository, tag) !in daemon.brokenPushes
    {
      ops := ops + [Push(repository, tag)];
      ok := (repository, tag) !in daemon.brokenPushes;
    }
  }

  /** `DeploymentResult`. */
  class DeploymentResult {
    var deployed: seq<Dict>
    var builtImages: seq<string>

    constructor ()
      ensures deployed == [] && builtImages == []
    {
      deployed, builtImages := [], [];
    }
  }

  /** A step from a clean run is the step's own calls, refs and error appended to that run. */
  lemma StepImageShift(run: ImageRun, img: DockerImage, registries: map<string, string>, path: string, daemon: Daemon)
    requires run.err.None?
    ensures var e := StepImage(ImageRun([], [], None), img, registries, path, daemon);
            StepImage(run, img, registries, path, daemon) == ImageRun(run.ops + e.ops, run.refs + e.refs, e.err)
  {
    var e := StepImage(ImageRun([], [], None), img, registries, path, daemon);
    assert run.refs + [] == run.refs;
    if Repository(img, registries).Ok? {
      var repo := Repository(img, registries).value;
      var ref := FullRef(repo, img.tag);
      var build := Build(Join(path, img.path), ref, img.buildArgs, img.platform);
      assert run.ops + [build] + [Push(repo, img.tag)] == run.ops + ([build] + [Push(repo, img.tag)]);
    } else {
      assert run.ops + [] == run.ops;
    }
  }

  lemma ImagesPrefixStep(images: seq<DockerImage>, i: nat, registries: map<string, string>, path: string, daemon: Daemon)
    requires i < |images| && ImagesS(images[..i], registries, path, daemon).err.None?
    ensures var run := ImagesS(images[..i], registries, path, daemon);
            var e := StepImage(ImageRun([], [], None), images[i], registries, path, daemon);
            ImagesS(images[..i + 1], registries, path, daemon) == ImageRun(run.ops + e.ops, run.refs + e.refs, e.err)
  {
    assert images[..i + 1][..i] == images[..i];
    StepImageShift(ImagesS(images[..i], registries, path, daemon), images[i], registries, path, daemon);
  }

  /** The body of the image loop for one image. */
  method BuildImage(result: DeploymentResult, config: GlobalConfig, path: string, image: DockerImage, docker: Docker)
    returns (r: Result<(), Error>)
    modifies result, docker
    ensures var e := StepImage(ImageRun([], [], None), image, config.registries, path, docker.daemon);
            docker.ops == old(docker.ops) + e.ops &&
            result.builtImages == old(result.builtImages) + e.refs &&
            (r.Err? <==> e.err.Some?) && (r.Err? ==> r.error == e.err.value)
    ensures docker.connected == old(docker.connected) && result.deployed == old(result.deployed)
  {
    var repository := Repository(image, config.registries);
    if repository.Err? {
      return Err(repository.error);
    }
    var fullRef := FullRef(repository.value, image.tag);
    var built := docker.BuildImage(Join(path, image.path), fullRef, image.buildArgs, image.platform);
    if !built {
      return Err(BuildFailed(fullRef));
    }
    if !HasRegistry(image) {
      return Ok(());
    }
    var pushed := docker.PushImage(repository.value, image.tag);
    if !pushed {
      return Err(PushFailed(repository.value, image.tag));
    }
    result.builtImages := result.builtImages + [fullRef];
    return Ok(());
  }

  /** The image loop of `docker_build_images`, once the client exists. */
  method BuildEach(result: DeploymentResult, config: GlobalConfig, path: string, images: seq<DockerImage>, docker: Docker)
    returns (r: Result<(), Error>)
    modifies result, docker
    ensures var run := ImagesS(images, config.registries, path, docker.daemon);
            docker.ops == old(docker.ops) + run.ops &&
            result.builtImages == old(result.builtImages) + run.refs &&
            (r.Err? <==> run.err.Some?) && (r.Err? ==> r.error == run.err.value)
    ensures docker.connected == old(docker.connected) && result.deployed == old(result.deployed)
  {
    ghost var ops0, refs0 := docker.ops, result.builtImages;
    var i := 0;
    r := Ok(());
    while i < |images| && r.Ok?
      invariant 0 <= i <= |images|
      invariant var run := ImagesS(images[..i], config.registries, path, docker.daemon);
                docker.ops == ops0 + run.ops && result.builtImages == refs0 + run.refs &&
                (r.Err? <==> run.err.Some?) && (r.Err? ==> r.error == run.err.value)
      invariant docker.connected == old(docker.connected) && result.deployed == old(result.deployed)
      decreases |images| - i
    {
      ImagesPrefixStep(images, i, config.registries, path, docker.daemon);
      ghost var run := ImagesS(images[..i], config.registries, path, docker.daemon);
      ghost var e := StepImage(ImageRun([], [], None), images[i], config.registries, path, docker.daemon);
      ConcatAssoc(ops0, run.ops, e.ops);
      ConcatAssoc(refs0, run.refs, e.refs);
      r := BuildImage(result, config, path, images[i], docker);
      i := i + 1;
    }
    if r.Err? {
      StoppedImages(images, i, config.registries, path, docker.daemon);
    } else {
      assert images[..i] == images;
    }
  }

  /** `docker_build_images`: the docker client is not even created when there are no images. */
  method BuildImages(result: DeploymentResult, config: GlobalConfig, path: string, images: seq<DockerImage>, docker: Docker)
    returns (r: Result<(), Error>)
    modifies result, docker
    ensures var run := ImagesS(images, config.registries, path, docker.daemon);
            docker.ops == old(docker.ops) + run.ops &&
            result.builtImages == old(result.builtImages) + run.refs &&
            (r.Err? <==> run.err.Some?) && (r.Err? ==> r.error == run.err.value)
    ensures docker.connected == (old(docker.connected) || |images| > 0)
    ensures result.deployed == old(result.deployed)
  {
    if |images| == 0 {
      return Ok(());
    }
    docker.Connect();
    r := BuildEach(result, config, path, images, docker);
  }

  /** Once the image loop has stopped, the remaining images change nothing. */
  lemma {:induction false} StoppedImages(images: seq<DockerImage>, n: nat, registries: map<string, string>, path: string, daemon: Daemon)
    requires n <= |images| && ImagesS(images[..n], registries, path, daemon).err.Some?
    ensures ImagesS(images, registries, path, daemon) == ImagesS(images[..n], registries, path, daemon)
    decreases |images| - n
  {
    if n < |images| {
      assert images[..n + 1][..n] == images[..n];
      StoppedImages(images, n + 1, registries, path, daemon);
    } else {
      assert images[..n] == images;
    }
  }

  // ---------------------------------------------------------------- cluster steps

  /** `k8s_resource_exists`. */
  method ResourceExists(cluster: Cluster, k: Key) returns (r: Result<bool, Error>)
    modifies cluster
    ensures Outcome(cluster.Snapshot(), r) == ExistsS(old(cluster.Snapshot()), k)
  {
    var g := cluster.Get(k);
    if g.Ok? {
      return Ok(true);
    }
    if g.error == NOT_FOUND {
      return Ok(false);
    }
    return Err(ApiFailure(g.error));
  }

  /** `k8s_try_patch_manifest`. */
  method TryPatch(cluster: Cluster, k: Key, doc: Dict, preRv: Value) returns (r: Option<(Action, Dict)>)
    modifies cluster
    ensures Attempt(cluster.Snapshot(), r) == TryPatchS(old(cluster.Snapshot()), k, doc, preRv)
  {
    var patched := cluster.Patch(k, doc, false);
    if patched.Ok? {
      if preRv != Null && ResourceVersion(patched.value) == preRv {
        return Some((Unchanged, patched.value));
      }
      return Some((Updated, patched.value));
    }
    if patched.error == CONFLICT {
      var forced := cluster.Patch(k, doc, true);
      if forced.Ok? {
        return Some((UpdatedForce, forced.value));
      }
      return None;
    }
    return None;
  }

  /** `k8s_wait_absent`. */
  method WaitAbsent(cluster: Cluster, k: Key) returns (r: Result<(), Error>)
    modifies cluster
    ensures Outcome(cluster.Snapshot(), r) == WaitAbsentS(old(cluster.Snapshot()), k, ABSENT_POLLS)
  {
    var polls := 0;
    while polls < ABSENT_POLLS
      invariant 0 <= polls <= ABSENT_POLLS
      invariant WaitAbsentS(cluster.Snapshot(), k, ABSENT_POLLS - polls) == WaitAbsentS(old(cluster.Snapshot()), k, ABSENT_POLLS)
    {
      var g := cluster.Get(k);
      if g.Err? && g.error == NOT_FOUND {
        return Ok(());
      }
      cluster.Sleep();
      polls := polls + 1;
    }
    return Err(Timeout);
  }

  /** `k8s_recreate_manifest`. */
  method Recreate(cluster: Cluster, k: Key, doc: Dict) returns (r: Result<Dict, Error>)
    modifies cluster
    ensures Outcome(cluster.Snapshot(), r) == RecreateS(old(cluster.Snapshot()), k, doc)
  {
    var deleted := cluster.Delete(k);
    if deleted.Err? && deleted.error != NOT_FOUND {
      return Err(ApiFailure(deleted.error));
    }
    var gone := WaitAbsent(cluster, k);
    if gone.Err? {
      return Err(gone.error);
    }
    var created := cluster.Create(k, doc);
    if created.Err? {
      return Err(ApiFailure(created.error));
    }
    return Ok(created.value);
  }

  /** `k8s_upsert_manifest`. */
  method Upsert(cluster: Cluster, doc: Dict) returns (r: Result<(Action, Dict), Error>)
    modifies cluster
    ensures Outcome(cluster.Snapshot(), r) == UpsertS(old(cluster.Snapshot()), doc)
  {
    var c :- Validate(doc);
    var namespaced := cluster.Resolve(TypeKey(c.apiVersion, c.kind));
    if namespaced.None? {
      return Err(UnknownResource(c.apiVersion, c.kind));
    }
    var k := KeyFor(c, namespaced.value);
    var exists_ := ResourceExists(cluster, k);
    if exists_.Err? {
      return Err(exists_.error);
    }
    if !exists_.value {
      var created := cluster.Create(k, doc);
      if created.Err? {
        return Err(ApiFailure(created.error));
      }
      return Ok((Created, created.value));
    }
    var current := cluster.Get(k);
    if current.Err? {
      return Err(ApiFailure(current.error));
    }
    var patched := TryPatch(cluster, k, doc, ResourceVersion(current.value));
    if patched.Some? {
      return Ok(patched.value);
    }
    var recreated := Recreate(cluster, k, doc);
    if recreated.Err? {
      return Err(recreated.error);
    }
    return Ok((Recreated, recreated.value));
  }

  /** `k8s_wait_crd_established`. */
  method WaitCrdEstablished(cluster: Cluster, name: Value) returns (r: Result<(), Error>)
    modifies cluster
    ensures Outcome(cluster.Snapshot(), r) == WaitCrdS(old(cluster.Snapshot()), name, CRD_POLLS)
  {
    var served := cluster.Resolve(CRD_TYPE);
    if served.None? {
      return Err(ResourceNotFound(Str(CRD_API_VERSION), Str(CRD_KIND)));
    }
    var k := Key(Str(CRD_API_VERSION), Str(CRD_KIND), None, name);
    var polls := 0;
    while polls < CRD_POLLS
      invariant 0 <= polls <= CRD_POLLS
      invariant PollCrdS(cluster.Snapshot(), k, CRD_POLLS - polls) == WaitCrdS(old(cluster.Snapshot()), name, CRD_POLLS)
    {
      var obj := cluster.Get(k);
      if obj.Err? {
        return Err(ApiFailure(obj.error));
      }
      var ready := CrdReady(obj.value);
      if ready.Err? {
        return Err(ready.error);
      }
      if ready.value {
        return Ok(());
      }
      cluster.Sleep();
      polls := polls + 1;
    }
    return Err(Timeout);
  }

  /** One item of the loop in `k8s_apply_manifests`. */
  method ApplyItem(cluster: Cluster, item: Dict) returns (r: Result<Dict, Error>)
    modifies cluster
    ensures Outcome(cluster.Snapshot(), r) == ApplyItemS(old(cluster.Snapshot()), item)
  {
    var upserted := Upsert(cluster, item);
    if upserted.Err? {
      return Err(Reported(item, upserted.error));
    }
    var action := upserted.value.0;
    if IsCrd(item) && action != Unchanged {
      var established := WaitCrdEstablished(cluster, CrdName(item));
      if established.Err? {
        return Err(established.error);
      }
      cluster.Refresh();
    }
    return Ok(Enrich(item, action));
  }

  /** The loop state as the spec functions see it. */
  function Observed(cluster: Cluster, result: DeploymentResult, r: Result<(), Error>): Run
    reads cluster, result
  {
    Run(cluster.Snapshot(), result.deployed, if r.Err? then Some(r.error) else None)
  }

  /** The loop of `k8s_apply_manifests` over the documents of one manifest. */
  method ApplyDocuments(result: DeploymentResult, cluster: Cluster, docs: seq<Value>) returns (r: Result<(), Error>)
    modifies result, cluster
    ensures Observed(cluster, result, r) == FeedDocs(Run(old(cluster.Snapshot()), old(result.deployed), None), docs)
    ensures result.builtImages == old(result.builtImages)
  {
    ghost var run0 := Run(cluster.Snapshot(), result.deployed, None);
    var j := 0;
    r := Ok(());
    while j < |docs| && r.Ok?
      invariant 0 <= j <= |docs|
      invariant Observed(cluster, result, r) == FeedDocs(run0, docs[..j])
      invariant result.builtImages == old(result.builtImages)
      decreases |docs| - j
    {
      assert docs[..j + 1][..j] == docs[..j];
      r := ApplyDocument(result, cluster, docs[j]);
      j := j + 1;
    }
    if r.Err? {
      FeedDocsAppend(run0, docs[..j], docs[j..]);
      assert docs[..j] + docs[j..] == docs;
      FeedDocsStopped(FeedDocs(run0, docs[..j]), docs[j..]);
    } else {
      assert docs[..j] == docs;
    }
  }

  /** One document: expanded into its items, which are then applied in order. */
  method ApplyDocument(result: DeploymentResult, cluster: Cluster, doc: Value) returns (r: Result<(), Error>)
    modifies result, cluster
    ensures Observed(cluster, result, r) == StepDoc(Run(old(cluster.Snapshot()), old(result.deployed), None), doc)
    ensures result.builtImages == old(result.builtImages)
  {
    var expanded := Expand(doc);
    if expanded.Err? {
      return Err(expanded.error);
    }
    r := ApplyItems(result, cluster, expanded.value);
  }

  /** The innermost loop of `k8s_apply_manifests`: the items one document expands to, applied in order. */
  method ApplyItems(result: DeploymentResult, cluster: Cluster, items: seq<Dict>) returns (r: Result<(), Error>)
    modifies result, cluster
    ensures Observed(cluster, result, r) == Feed(Run(old(cluster.Snapshot()), old(result.deployed), None), items)
    ensures result.builtImages == old(result.builtImages)
  {
    ghost var run0 := Run(cluster.Snapshot(), result.deployed, None);
    var k := 0;
    r := Ok(());
    while k < |items| && r.Ok?
      invariant 0 <= k <= |items|
      invariant Observed(cluster, result, r) == Feed(run0, items[..k])
      invariant result.builtImages == old(result.builtImages)
      decreases |items| - k
    {
      assert items[..k + 1][..k] == items[..k];
      r := ApplyOne(result, cluster, items[k]);
      k := k + 1;
    }
    if r.Err? {
      FeedAppend(run0, items[..k], items[k..]);
      assert items[..k] + items[k..] == items;
      FeedStopped(Feed(run0, items[..k]), items[k..]);
    } else {
      assert items[..k] == items;
    }
  }

  /** One item of the innermost loop: applied, and its record appended when it succeeds. */
  method ApplyOne(result: DeploymentResult, cluster: Cluster, item: Dict) returns (r: Result<(), Error>)
    modifies result, cluster
    ensures Observed(cluster, result, r) == StepItem(Run(old(cluster.Snapshot()), old(result.deployed), None), item)
    ensures result.builtImages == old(result.builtImages)
  {
    var record := ApplyItem(cluster, item);
    if record.Err? {
      return Err(record.error);
    }
    result.deployed := result.deployed + [record.value];
    return Ok(());
  }

  /** The documents of every manifest, manifest by manifest. */
  function ManifestItems(path: string, manifests: seq<KubernetesManifest>, documents: string -> seq<Value>): seq<Dict> {
    if |manifests| == 0 then []
    else ManifestItems(path, manifests[..|manifests| - 1], documents) + ItemsOf(DocsOf(path, manifests[|manifests| - 1].paths, documents))
  }

  /** `records` are the records of the first |records| items, in order. */
  predicate RecordsPrefix(records: seq<Dict>, items: seq<Dict>) {
    |records| <= |items| && forall i :: 0 <= i < |records| ==> RecordOf(records[i], items[i])
  }

  lemma ParseActionName(a: Action)
    ensures ParseAction(Str(ActionName(a))) == Some(a)
  {
  }

  lemma EnrichIsRecord(item: Dict, a: Action)
    ensures RecordOf(Enrich(item, a), item)
  {
    ParseActionName(a);
    assert Get(Enrich(item, a), "_action") == Str(ActionName(a));
  }

  lemma ApplyItemRecord(s: State, item: Dict)
    ensures ApplyItemS(s, item).result.Ok? ==> RecordOf(ApplyItemS(s, item).result.value, item)
  {
    var u := UpsertS(s, item);
    if u.result.Ok? {
      EnrichIsRecord(item, u.result.value.0);
    }
  }

  /**
   * `records` is `base` followed by the records of a prefix of `items`, of all of them when
   * `complete`.
   */
  predicate Extends(base: seq<Dict>, records: seq<Dict>, items: seq<Dict>, complete: bool) {
    |records| >= |base| && records[..|base|] == base &&
    RecordsPrefix(records[|base|..], items) &&
    (complete ==> |records| == |base| + |items|)
  }

  lemma ExtendsNothing(base: seq<Dict>)
    ensures Extends(base, base, [], true)
  {
  }

  lemma ExtendsConcat(base: seq<Dict>, mid: seq<Dict>, records: seq<Dict>, xs: seq<Dict>, ys: seq<Dict>, complete: bool)
    requires Extends(base, mid, xs, true) && Extends(mid, records, ys, complete)
    ensures Extends(base, records, xs + ys, complete)
  {
    var a, b := mid[|base|..], records[|mid|..];
    assert records[..|mid|][..|base|] == records[..|base|];
    assert records[|base|..] == a + b;
    forall i | 0 <= i < |a + b|
      ensures RecordOf((a + b)[i], (xs + ys)[i])
    {
      if i >= |a| {
        assert (a + b)[i] == b[i - |a|] && (xs + ys)[i] == ys[i - |xs|];
      } else {
        assert (a + b)[i] == a[i] && (xs + ys)[i] == xs[i];
      }
    }
  }

  lemma ExtendsWithin(base: seq<Dict>, records: seq<Dict>, xs: seq<Dict>, ys: seq<Dict>, complete: bool)
    requires Extends(base, records, xs, complete)
    ensures Extends(base, records, xs + ys, false)
  {
    var a := records[|base|..];
    forall i | 0 <= i < |a|
      ensures RecordOf(a[i], (xs + ys)[i])
    {
      assert (xs + ys)[i] == xs[i];
    }
  }

  lemma ExtendsPrefix(base: seq<Dict>, records: seq<Dict>, part: seq<Dict>, whole: seq<Dict>, complete: bool)
    requires Extends(base, records, part, complete) && |part| <= |whole| && whole[..|part|] == part
    ensures Extends(base, records, whole, false)
  {
    assert whole == part + whole[|part|..];
    ExtendsWithin(base, records, part, whole[|part|..], complete);
  }

  lemma ExtendsOne(base: seq<Dict>, record: Dict, item: Dict)
    requires RecordOf(record, item)
    ensures Extends(base, base + [record], [item], true)
  {
    assert (base + [record])[..|base|] == base;
    assert (base + [record])[|base|..] == [record];
  }

  /**
   * The records the item loop leaves behind are those of a prefix of its items, all of them
   * exactly when it did not stop.
   */
  lemma {:induction false} FeedRecords(r: Run, items: seq<Dict>)
    requires r.err.None?
    ensures Extends(r.records, Feed(r, items).records, items, Feed(r, items).err.None?)
    ensures |Feed(r, items).records| == |r.records| + |items| ==> Feed(r, items).err.None?
    decreases |items|
  {
    if |items| == 0 {
      ExtendsNothing(r.records);
    } else {
      var init := items[..|items| - 1];
      var last := items[|items| - 1];
      assert items == init + [last];
      FeedRecords(r, init);
      var prev := Feed(r, init);
      assert Feed(r, items) == StepItem(prev, last);
      if prev.err.Some? {
        ExtendsWithin(r.records, prev.records, init, [last], false);
      } else {
        var o := ApplyItemS(prev.state, last);
        if o.result.Ok? {
          ApplyItemRecord(prev.state, last);
          ExtendsOne(prev.records, o.result.value, last);
          ExtendsConcat(r.records, prev.records, prev.records + [o.result.value], init, [last], true);
        } else {
          ExtendsWithin(r.records, prev.records, init, [last], true);
        }
      }
    }
  }

  lemma {:induction false} FeedDocsRecords(r: Run, docs: seq<Value>)
    requires r.err.None?
    ensures Extends(r.records, FeedDocs(r, docs).records, ItemsOf(docs), FeedDocs(r, docs).err.None?)
    decreases |docs|
  {
    if |docs| == 0 {
      ExtendsNothing(r.records);
    } else {
      var init := docs[..|docs| - 1];
      var last := docs[|docs| - 1];
      FeedDocsRecords(r, init);
      var prev := FeedDocs(r, init);
      assert FeedDocs(r, docs) == StepDoc(prev, last);
      var e := Expand(last);
      var more := if e.Ok? then e.value else [];
      assert ItemsOf(docs) == ItemsOf(init) + more;
      if prev.err.Some? {
        ExtendsWithin(r.records, prev.records, ItemsOf(init), more, false);
      } else if e.Err? {
        assert more == [] && ItemsOf(init) + more == ItemsOf(init);
        ExtendsWithin(r.records, prev.records, ItemsOf(init), more, true);
      } else {
        FeedRecords(prev, e.value);
        ExtendsConcat(r.records, prev.records, Feed(prev, e.value).records, ItemsOf(init), e.value, Feed(prev, e.value).err.None?);
      }
    }
  }

  lemma {:induction false} ManifestItemsPrefix(path: string, manifests: seq<KubernetesManifest>, n: nat, documents: string -> seq<Value>)
    requires n <= |manifests|
    ensures var whole := ManifestItems(path, manifests, documents);
            var part := ManifestItems(path, manifests[..n], documents);
            |part| <= |whole| && whole[..|part|] == part
    decreases |manifests| - n
  {
    if n < |manifests| {
      ManifestItemsPrefix(path, manifests, n + 1, documents);
      assert manifests[..n + 1][..n] == manifests[..n];
    } else {
      assert manifests[..n] == manifests;
    }
  }

  // ---------------------------------------------------------------- the manifest loop

  /**
   * What the manifest loop reads besides the cluster: the configuration, the kubeconfig slot,
   * what loading each global secret returns, the challenge directory and the manifest files.
   */
  datatype Sources = Sources(config: GlobalConfig, last: Option<string>, loads: map<string, Result<string, Error>>,
                             path: string, documents: string -> seq<Value>)

  function SourcesOf(config: GlobalConfig, kstate: KubernetesState, host: Host, path: string, documents: string -> seq<Value>): Sources
    reads config.secrets.Values, kstate
  {
    Sources(config, kstate.lastLoadedCluster, SecretLoads(config, host), path, documents)
  }

  /** The error loading a manifest's named cluster raises, if it names one and loading fails. */
  function LoadError(m: KubernetesManifest, src: Sources): Option<Error> {
    if NamesCluster(m) then
      var loaded := LoadOutcomeFrom(src.last, src.config, src.loads, m.clusterName.value);
      if loaded.Err? then Some(loaded.error) else None
    else None
  }

  /**
   * One manifest once the cluster-name rule has passed: its cluster's kubeconfig is loaded,
   * then a fresh dynamic client (fresh discovery) applies its documents.
   */
  function ManifestBody(r: Run, m: KubernetesManifest, src: Sources): Run {
    match LoadError(m, src)
    case Some(e) => r.(err := Some(e))
    case None => FeedDocs(r.(state := RefreshS(r.state)), DocsOf(src.path, m.paths, src.documents))
  }

  function StepManifest(r: Run, m: KubernetesManifest, src: Sources): Run {
    if r.err.Some? then r
    else if !ClusterRuleHolds(|src.config.clusters|, m) then r.(err := Some(ClusterNameRequired))
    else ManifestBody(r, m, src)
  }

  /** The manifest loop of `k8s_apply_manifests` over a sequence of manifests. */
  function FeedManifests(r: Run, manifests: seq<KubernetesManifest>, src: Sources): Run
    decreases |manifests|
  {
    if |manifests| == 0 then r
    else StepManifest(FeedManifests(r, manifests[..|manifests| - 1], src), manifests[|manifests| - 1], src)
  }

  lemma {:induction false} FeedManifestsStopped(r: Run, manifests: seq<KubernetesManifest>, src: Sources)
    requires r.err.Some?
    ensures FeedManifests(r, manifests, src) == r
    decreases |manifests|
  {
    if |manifests| > 0 {
      FeedManifestsStopped(r, manifests[..|manifests| - 1], src);
    }
  }

  lemma {:induction false} FeedManifestsAppend(r: Run, a: seq<KubernetesManifest>, b: seq<KubernetesManifest>, src: Sources)
    ensures FeedManifests(r, a + b, src) == FeedManifests(FeedManifests(r, a, src), b, src)
    decreases |b|
  {
    if |b| == 0 {
      assert a + b == a;
    } else {
      assert (a + b)[..|a + b| - 1] == a + b[..|b| - 1];
      FeedManifestsAppend(r, a, b[..|b| - 1], src);
    }
  }

  /** A manifest that breaks the cluster-name rule stops the loop before anything of it is applied. */
  lemma {:induction false} FeedManifestsRule(r: Run, manifests: seq<KubernetesManifest>, src: Sources)
    requires r.err.None?
    ensures FeedManifests(r, manifests, src).err.None? ==> forall m :: m in manifests ==> ClusterRuleHolds(|src.config.clusters|, m)
    ensures |manifests| > 0 && !ClusterRuleHolds(|src.config.clusters|, manifests[0]) ==>
              FeedManifests(r, manifests, src) == r.(err := Some(ClusterNameRequired))
    decreases |manifests|
  {
    if |manifests| > 0 {
      var init := manifests[..|manifests| - 1];
      var last := manifests[|manifests| - 1];
      assert manifests == init + [last];
      FeedManifestsRule(r, init, src);
      var prev := FeedManifests(r, init, src);
      if prev.err.Some? {
        FeedManifestsStopped(prev, [last], src);
      }
      if !ClusterRuleHolds(|src.config.clusters|, manifests[0]) && |init| > 0 {
        assert init[0] == manifests[0];
      }
    }
  }

  /** The records the manifest loop leaves behind are those of a prefix of every manifest's items, in order. */
  lemma {:induction false} FeedManifestsRecords(r: Run, manifests: seq<KubernetesManifest>, src: Sources)
    requires r.err.None?
    ensures var f := FeedManifests(r, manifests, src);
            Extends(r.records, f.records, ManifestItems(src.path, manifests, src.documents), f.err.None?)
    decreases |manifests|
  {
    if |manifests| == 0 {
      ExtendsNothing(r.records);
    } else {
      var init := manifests[..|manifests| - 1];
      var last := manifests[|manifests| - 1];
      FeedManifestsRecords(r, init, src);
      var prev := FeedManifests(r, init, src);
      var done := ManifestItems(src.path, init, src.documents);
      var more := ItemsOf(DocsOf(src.path, last.paths, src.documents));
      assert ManifestItems(src.path, manifests, src.documents) == done + more;
      if prev.err.Some? || !ClusterRuleHolds(|src.config.clusters|, last) || LoadError(last, src).Some? {
        ExtendsWithin(r.records, prev.records, done, more, prev.err.None?);
      } else {
        var docs := DocsOf(src.path, last.paths, src.documents);
        var next := prev.(state := RefreshS(prev.state));
        FeedDocsRecords(next, docs);
        ExtendsConcat(r.records, prev.records, FeedDocs(next, docs).records, done, more, FeedDocs(next, docs).err.None?);
      }
    }
  }

  /** The body of the manifest loop of `k8s_apply_manifests`, once the cluster-name rule has passed. */
  method ApplyManifest(result: DeploymentResult, config: GlobalConfig, path: string, manifest: KubernetesManifest,
                       cluster: Cluster, kstate: KubernetesState, host: Host, documents: string -> seq<Value>)
    returns (r: Result<(), Error>)
    modifies result, cluster, SecretObjects(config)`value
    ensures Observed(cluster, result, r)
            == ManifestBody(Run(old(cluster.Snapshot()), old(result.deployed), None), manifest,
                            old(SourcesOf(config, kstate, host, path, documents)))
    ensures Extends(old(result.deployed), result.deployed, ItemsOf(DocsOf(path, manifest.paths, documents)), r.Ok?)
    ensures SecretLoads(config, host) == old(SecretLoads(config, host))
    ensures result.builtImages == old(result.builtImages)
  {
    if NamesCluster(manifest) {
      KubeconfigTargetWithin(config, manifest.clusterName.value);
      var loaded := kstate.LoadKubeconfig(config, manifest.clusterName.value, host);
      if loaded.Err? {
        ExtendsWithin(result.deployed, result.deployed, [], ItemsOf(DocsOf(path, manifest.paths, documents)), true) by {
          ExtendsNothing(result.deployed);
        }
        return Err(loaded.error);
      }
    }
    cluster.Refresh();
    ghost var snap := cluster.Snapshot();
    var docs := DocsOf(path, manifest.paths, documents);
    r := ApplyDocuments(result, cluster, docs);
    FeedDocsRecords(Run(snap, old(result.deployed), None), docs);
  }

  /**
   * `k8s_apply_manifests`. Manifests are taken in order; each needs a cluster name unless
   * exactly one cluster is configured; a named cluster's kubeconfig is loaded first; each
   * manifest gets a fresh dynamic client (fresh discovery). The records appended are those
   * of the manifests' items in order, up to the one that failed.
   */
  method ApplyManifests(result: DeploymentResult, config: GlobalConfig, path: string, manifests: seq<KubernetesManifest>,
                        cluster: Cluster, kstate: KubernetesState, host: Host, documents: string -> seq<Value>)
    returns (r: Result<(), Error>)
    modifies result, cluster, SecretObjects(config)`value
    ensures Observed(cluster, result, r)
            == FeedManifests(Run(old(cluster.Snapshot()), old(result.deployed), None), manifests,
                             old(SourcesOf(config, kstate, host, path, documents)))
    ensures r.Ok? ==> forall m :: m in manifests ==> ClusterRuleHolds(|config.clusters|, m)
    ensures |manifests| > 0 && !ClusterRuleHolds(|config.clusters|, manifests[0]) ==>
              r == Err(ClusterNameRequired) && result.deployed == old(result.deployed) &&
              cluster.Snapshot() == old(cluster.Snapshot())
    ensures Extends(old(result.deployed), result.deployed, ManifestItems(path, manifests, documents), r.Ok?)
    ensures SecretLoads(config, host) == old(SecretLoads(config, host))
    ensures result.builtImages == old(result.builtImages)
  {
    ghost var src := SourcesOf(config, kstate, host, path, documents);
    ghost var run0 := Run(cluster.Snapshot(), result.deployed, None);
    var clustersCount := |config.clusters|;
    var i := 0;
    r := Ok(());
    while i < |manifests| && r.Ok?
      invariant 0 <= i <= |manifests|
      invariant Observed(cluster, result, r) == FeedManifests(run0, manifests[..i], src)
      invariant SecretLoads(config, host) == old(SecretLoads(config, host))
      invariant result.builtImages == old(result.builtImages)
      decreases |manifests| - i
    {
      assert manifests[..i + 1][..i] == manifests[..i];
      if clustersCount != 1 && !NamesCluster(manifests[i]) {
        r := Err(ClusterNameRequired);
      } else {
        r := ApplyManifest(result, config, path, manifests[i], cluster, kstate, host, documents);
      }
      i := i + 1;
    }
    if r.Err? {
      FeedManifestsAppend(run0, manifests[..i], manifests[i..], src);
      assert manifests[..i] + manifests[i..] == manifests;
      FeedManifestsStopped(FeedManifests(run0, manifests[..i], src), manifests[i..], src);
    } else {
      assert manifests[..i] == manifests;
    }
    FeedManifestsRule(run0, manifests, src);
    FeedManifestsRecords(run0, manifests, src);
  }

  /**
   * `deploy_challenge`: images first, then manifests, into a fresh result. A failing image
   * step raises before any manifest is applied.
   */
  method DeployChallenge(config: GlobalConfig, path: string, deployment: DeploymentConfig, cluster: Cluster,
                         docker: Docker, kstate: KubernetesState, host: Host, documents: string -> seq<Value>)
    returns (r: Result<DeploymentResult, Error>)
    modifies cluster, docker, SecretObjects(config)`value
    ensures var run := ImagesS(deployment.images, config.registries, path, docker.daemon);
            docker.ops == old(docker.ops) + run.ops &&
            (run.err.Some? ==> r == Err(run.err.value) && cluster.Snapshot() == old(cluster.Snapshot())) &&
            (r.Ok? ==> fresh(r.value) && r.value.builtImages == run.refs &&
                       Extends([], r.value.deployed, ManifestItems(path, deployment.manifests, documents), true))
    ensures var run := ImagesS(deployment.images, config.registries, path, docker.daemon);
            var applied := FeedManifests(Run(old(cluster.Snapshot()), [], None), deployment.manifests,
                                         old(SourcesOf(config, kstate, host, path, documents)));
            run.err.None? ==>
              cluster.Snapshot() == applied.state &&
              (applied.err.Some? ==> r == Err(applied.err.value)) &&
              (applied.err.None? ==> r.Ok? && r.value.deployed == applied.records)
  {
    var result := new DeploymentResult();
    var built := BuildImages(result, config, path, deployment.images, docker);
    if built.Err? {
      return Err(built.error);
    }
    var applied := ApplyManifests(result, config, path, deployment.manifests, cluster, kstate, host, documents);
    if applied.Err? {
      return Err(applied.error);
    }
    return Ok(result);
  }
}
