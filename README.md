# kona core, modelled in Dafny

kona deploys CTF challenges. It walks a directory tree of challenge specs, builds and pushes
each challenge's Docker images, applies its Kubernetes manifests, discovers klodd starter
endpoints among the applied manifests, and synchronises every challenge with the configured
rCTF / CTFd platforms. This project models that core and proves what it does.

The centre is the manifest reconciliation ladder of `kona/core/deployment.py`, as it runs
against a Kubernetes API server:

1. Expand `List` documents.
2. Validate the required fields.
3. Default the namespace.
4. Check whether the object exists. An absent object is created.
5. Otherwise apply-patch it. The resourceVersion comparison decides `unchanged` versus `updated`.
6. On a conflict, retry with a forced patch (`updated(force)`).
7. When the patch still fails, delete, wait until the object is gone and create it again (`recreated`).
8. After a changed CRD, wait for it to be established and refresh discovery.
9. Record each item as a copy with `_action` set.

Around it sits the image pipeline: resolve the registry, form `repo:tag`, build, push only
with a registry, and record pushed refs in order. The smaller pieces come from the sync
orchestrator, the endpoint discovery, the cluster activation, the schema helpers and the
attachment diff utilities.

Modules, one per source file plus shared helpers:

- `Wrappers`: Option and Result.
- `Errors`: one constructor per exception the code raises.
- `Json`: decoded YAML values, `dict.get`, Python truthiness.
- `Text`: join, `rstrip`, `strip`, basename, integer formatting.
- `FileTree`: an abstract directory tree.
- `Models`: `kona/schema/models.py`.
- `KubeApi`: the API server as seen through the dynamic client.
  - The cluster is a `class Cluster` holding a map from (apiVersion, kind, namespace, name) to a stored body with its resourceVersion.
  - It also holds a resourceVersion counter, the served types and the client's discovery cache.
  - A scripted fault oracle supplies each call's outcome (ok, 404, 409, any other status).
  - A background script supplies what other actors do while a poll sleeps.
- `Kubernetes`: `kona/core/kubernetes.py`, with the process-wide slot as a class `KubernetesState`.
- `Deployment` and `DeploymentProofs`: `kona/core/deployment.py`.
  - Every step of the ladder is a method on the `Cluster`.
  - Each method is proved equal to a pure specification function over the cluster state (`UpsertS`, `WaitAbsentS`, …).
  - The apply loops are proved equal to folds: `Feed` over items, `FeedDocs` over documents and `FeedManifests` over manifests.
  - The docker client is a class recording build and push operations.
- `ManifestDiscovery`: `kona/core/k8s_manifest_discovery.py`.
- `AnalyzeAttachment`: `looks_like_text`, `generic_diff`, `diff` and `build_files_dict`.
- `Sync` and `SyncProofs`: `kona/core/sync.py`.
  - The environment is a class `Environment` that records every collaborator call in a trace.
  - The collaborators are schema loading, tarball creation, provider sync and setup, and cluster activation.
  - The walk is proved equal to a pure specification `WalkS`.

In several places the code does something other than its names, messages or comments suggest. The model follows the code:

- A non-409 patch failure goes straight to recreate, without a forced patch.
- The absence wait swallows every error other than 404, not only the not-found signal.
- The cluster-name rule also fires when no cluster is configured, not only with more than one.
- The "last loaded cluster" slot is never written, so activation never skips.
- Endpoint discovery ignores `_action`, so `unchanged` manifests also give endpoints.
- `List` expansion keeps only the dict items and does not recurse into nested lists.
- A truthy `metadata` that is not a dict raises `AttributeError` (the `NotADict` error), not the required-fields error. A falsy one counts as `{}`.
- When an upsert fails, the handler itself raises `AttributeError` for a `metadata` that is present but not a dict (even `null`), hiding the upsert's error.
- `looks_like_text` is true when some byte among the first 100 is *not* printable ASCII, so `diff` counts lines when both 100-byte prefixes contain a byte outside 32..126, even a newline, and counts bytes when either prefix is all printable ASCII. On the line path a side that is not valid UTF-8 raises `UnicodeDecodeError`.

The code reads some configuration fields that the schema does not declare. They are fields of the model's configuration datatypes:

- `manifest.paths` (the schema declares `path`);
- `cluster.use_default`;
- `discovery.klodd_domain`, `discovery.klodd_endpoint_name` and `discovery.attachment_analysis_depth`.

## Model

| member | source | states |
|---|---|---|
| Models.NamePrefix | kona/schema/models.py:73-75 | the prefix is empty exactly when the endpoint has no (or an empty) name; otherwise it is the name followed by `": "` |
| Models.HttpPortIfNeeded | kona/schema/models.py:77-79 | the suffix is empty exactly when the port is None or 0; otherwise it starts with `':'` |
| Models.HttpPortIfNeededReadsBack | kona/schema/models.py:77-79 | for every truthy port, negative ones included, the text after `':'` (a minus sign for a negative port, then the digits) reads back as that port |
| Models.HttpEndpointParts | kona/schema/models.py:81-83 | the URL is the type value, `"://"`, the endpoint and the port suffix, in that order; its scheme is the type value; without a truthy port the URL is just `type://endpoint` |
| Models.ChallengeIdInjective | kona/schema/models.py:99-101 | `category_name` determines category and name whenever categories contain no `'_'` |
| Models.StripDescription | kona/schema/models.py:103-106 | the stored description has no leading or trailing whitespace and is the input with only surrounding whitespace removed |
| Text.StripIdempotent | kona/schema/models.py:103-106 | stripping a stripped description changes nothing |
| Models.ValidateChallengeItem | kona/schema/models.py:103-113 | an item is accepted iff `flags.rctf` is non-empty or `flags.ctfd` is a non-empty list; an accepted item is the input with its description stripped; a rejection names the challenge id |
| Models.ValidateChallengeItemIdempotent | kona/schema/models.py:103-113 | validating an accepted item again accepts it unchanged |
| Models.SecretExactlyOneOf | kona/schema/models.py:152-158 | a secret is accepted iff exactly one of file path, value and env is given; otherwise the exactly-one-of error |
| Models.KonaSecret.constructor | kona/schema/models.py:147-150 | a secret object holds the fields it is given |
| Models.KonaSecret.ExactlyOneOf | kona/schema/models.py:152-158 | the validator on an object accepts iff exactly one of its three fields is set |
| Models.LoadSecretPriority | kona/schema/models.py:160-186 | the value wins; else the file (a path starting with `.` taken from the root path), missing file giving FileNotFoundError; else the env variable, unset giving ValueError; else RuntimeError |
| Models.LoadSecretIgnoresLower | kona/schema/models.py:160-186 | a set value is returned whatever the file path, env and host are; with no value a file path is read whatever the env variable and the host's environment are; an env variable alone is read whatever the host's files and root are |
| Models.KonaSecret.Loaded | kona/schema/models.py:160-186 | returns what the priority rule gives for the object's fields and stores a successful file or env read in `value`; a failure leaves `value` unchanged |
| Models.LoadSecretCached | kona/schema/models.py:175-184 | after a successful load a second load returns the same string, whatever the files and environment are by then |
| Models.SecretOrValueExactlyOneOf | kona/schema/models.py:193-199 | accepted iff exactly one of `secret` and `value` is given |
| Models.LoadSecretOrValue | kona/schema/models.py:201-206 | a named secret is loaded (and cached) through the global secrets table, a missing name raises KeyError; otherwise the inline value; only the named secret's `value` may change, and a failed load changes nothing; what any later load of any secret returns is unchanged, so the cache is transparent |
| Kubernetes.SelectSourcePriority | kona/core/kubernetes.py:27-39 | a kubeconfig wins whatever `incluster` and `use_default` say; without one `incluster` selects the in-cluster loader, else `use_default` the default loader; no source iff none of the three |
| Kubernetes.KubernetesState.constructor | kona/core/kubernetes.py:10-15 | the process-wide slot starts empty |
| Kubernetes.KubernetesState.LoadKubeconfig | kona/core/kubernetes.py:18-45 | skip when the slot names the cluster; an unknown cluster raises before any loader; otherwise exactly the selected loader runs, a kubeconfig secret's load error propagating; only the kubeconfig secret's `value` may change, never the slot, so with an empty slot the call never skips; what any later load of any secret returns is unchanged |
| Deployment.Repository | kona/core/deployment.py:75-82 | an image with a registry name that is unknown or empty raises the unknown-registry error naming image and tag; without a registry the repository is the image name; with one it is the registry without trailing `/`, a `/`, and the name |
| DeploymentProofs.PushedRefShape | kona/core/deployment.py:82-102 | a pushed ref is the registry without trailing slashes, `/`, the image name, `:`, the tag |
| Deployment.Docker.constructor | kona/core/deployment.py:31-33 | a fresh docker client has issued no operation and is not yet connected |
| Deployment.Docker.Connect | kona/core/deployment.py:73 | connecting issues no build or push |
| Deployment.Docker.BuildImage | kona/core/deployment.py:36-49 | one build of the context with the ref, build args and platform is recorded; it succeeds iff the daemon can build that ref |
| Deployment.Docker.PushImage | kona/core/deployment.py:52-60 | one push of repository and tag is recorded; it succeeds iff the daemon accepts that push |
| Deployment.DeploymentResult.constructor | kona/core/deployment.py:25-28 | a new result has no applied manifests and no built images |
| Deployment.BuildImage | kona/core/deployment.py:75-102 | one image's pass issues exactly the operations of the image step spec and records its pushed ref, raising its error; the applied manifests are untouched |
| Deployment.BuildEach | kona/core/deployment.py:74-102 | the image loop issues the operations and records the refs of the image pipeline spec over the images in order, and raises its first error |
| Deployment.BuildImages | kona/core/deployment.py:63-102 | as the loop, and the docker client is touched only when there are images |
| Deployment.StoppedImages | kona/core/deployment.py:78-80 | once an image has raised, no later image is processed |
| DeploymentProofs.ImagesAllSucceed | kona/core/deployment.py:74-102 | when every image resolves, builds and pushes, the docker calls are, image by image in declaration order, its build (context, ref, build args, platform) followed by its push exactly when it has a registry; the recorded refs are those of the images with a registry, in order |
| DeploymentProofs.UnknownRegistryStops | kona/core/deployment.py:76-80 | an unknown registry raises before its image is built; the refs pushed for earlier images stay recorded and no later image is built |
| DeploymentProofs.ImageWithoutRegistry | kona/core/deployment.py:96-98 | an image without a registry is built but neither pushed nor recorded |
| Deployment.ParseAction | kona/core/deployment.py:315-316 | a recognised `_action` value is the name of that action |
| Deployment.ParseActionName | kona/core/deployment.py:315-316 | the recorded action name reads back as the action |
| Deployment.Validate | kona/core/deployment.py:242-248 | a truthy non-dict `metadata` raises AttributeError, and a falsy one counts as `{}`; a missing or falsy apiVersion, kind or metadata.name raises the required-fields error; otherwise the coordinates are the document's own fields |
| Deployment.Namespace | kona/core/deployment.py:138-142 | a namespace is given iff the type is namespaced; it is `metadata.namespace` when that is truthy and `"default"` otherwise |
| Deployment.Expand | kona/core/deployment.py:269-272 | a document that is not a dict raises; a dict that is not a `List` with a list of items expands to itself alone |
| DeploymentProofs.ExpandList | kona/core/deployment.py:269-271 | a `List` whose items are a list expands to exactly its dict items: each kept as often as it occurs, and any split of the list expands part by part, in order |
| DeploymentProofs.DictItemsAppend | kona/core/deployment.py:270-271 | expanding a concatenation of lists is the concatenation of their expansions |
| DeploymentProofs.DictItemsCount | kona/core/deployment.py:270-271 | each dict is kept exactly as often as it occurs in the list |
| DeploymentProofs.DictItemsMembers | kona/core/deployment.py:271 | a dict is among the expanded items iff it is one of the list's items |
| DeploymentProofs.DictItemsAllDicts | kona/core/deployment.py:270-271 | a list of N dicts expands to those N dicts, in list order |
| Deployment.ResourceExists | kona/core/deployment.py:145-153 | the existence check does what the existence spec says: false on 404, true on success, any other status re-raised |
| Deployment.TryPatch | kona/core/deployment.py:156-191 | the patch attempt follows the patch spec: version comparison, one forced retry on 409, None on any other failure |
| Deployment.WaitAbsent | kona/core/deployment.py:113-127 | the absence poll follows the wait spec over 120 polls |
| Deployment.Recreate | kona/core/deployment.py:194-212 | delete (404 tolerated), wait, create, as the recreate spec says |
| Deployment.Upsert | kona/core/deployment.py:237-266 | the whole ladder leaves the cluster and returns exactly what the upsert spec says |
| Deployment.WaitCrdEstablished | kona/core/deployment.py:215-229 | the CRD poll follows the readiness spec over 240 polls |
| Deployment.ApplyItem | kona/core/deployment.py:296-317 | upsert, the CRD wait and discovery refresh for a changed CRD, and the record, as the item spec says |
| Deployment.ApplyOne | kona/core/deployment.py:296-317 | one item of the loop appends its record or stops with its error, as the fold step says |
| Deployment.ApplyItems | kona/core/deployment.py:295-317 | the item loop is the fold of the item step over the items |
| Deployment.ApplyDocument | kona/core/deployment.py:294-317 | one document is expanded and its items applied, as the document step says |
| Deployment.ApplyDocuments | kona/core/deployment.py:294-317 | the document loop is the fold of the document step; built images are untouched |
| Deployment.FeedStopped | kona/core/deployment.py:296-301 | after a re-raised failure no later item is applied |
| Deployment.FeedAppend | kona/core/deployment.py:293-295 | items are applied strictly in sequence: applying a concatenation applies the first part, then the second |
| Deployment.FeedDocsStopped | kona/core/deployment.py:296-301 | after a failure no later document is applied |
| Deployment.FeedDocsAppend | kona/core/deployment.py:293-295 | documents are applied strictly in sequence |
| Deployment.EnrichIsRecord | kona/core/deployment.py:315-316 | a record is a copy of its item with `_action` added |
| DeploymentProofs.EnrichKeepsFields | kona/core/deployment.py:315-316 | every key other than `_action` is the item's own, with the item's value, and `_action` reads back as the action |
| Deployment.ApplyItemRecord | kona/core/deployment.py:315-317 | an applied item's record is a record of that item |
| Deployment.FeedRecords | kona/core/deployment.py:295-317 | the records grow by one record per applied item, in item order, and cover all items iff nothing failed |
| Deployment.FeedDocsRecords | kona/core/deployment.py:294-317 | the records follow the expanded items of the documents in order, covering all of them when nothing failed |
| Deployment.ApplyManifest | kona/core/deployment.py:288-317 | one manifest is the manifest step: a named cluster whose kubeconfig fails to load raises that error with the cluster and the records untouched; otherwise discovery is refreshed (a fresh client) and the manifest's documents are applied as the document fold says; the records are one per expanded item, in order, all of them on success; what any secret loads is unchanged |
| Deployment.ApplyManifests | kona/core/deployment.py:275-317 | cluster state, records and raised error are those of the manifest fold: per manifest, the cluster-name rule, the kubeconfig load, then the document fold; hence on success every manifest satisfied the rule (one cluster, or a name), a first manifest that breaks it fails with nothing applied, and the records follow the items of all manifests in order |
| Deployment.FeedManifestsStopped | kona/core/deployment.py:284-301 | after a raised error no later manifest is processed |
| Deployment.FeedManifestsAppend | kona/core/deployment.py:283 | manifests are processed strictly in sequence |
| Deployment.FeedManifestsRule | kona/core/deployment.py:281-286 | a loop that did not stop saw only manifests meeting the cluster-name rule; a first manifest breaking it stops the loop with the cluster-name error and nothing else changed |
| Deployment.FeedManifestsRecords | kona/core/deployment.py:283-317 | the manifest loop's records are those of a prefix of all manifests' items, in order, all of them when nothing failed |
| Deployment.DeployChallenge | kona/core/deployment.py:320-326 | images run before manifests, their docker calls being the image fold's; an image failure raises with the cluster untouched; once the images succeed, the cluster, the records and the raised error are those of the manifest fold from an empty record list; on success a new result holds the pushed refs and one record per manifest item, in order |
| DeploymentProofs.UpsertRejectsInvalid | kona/core/deployment.py:242-248 | an invalid document is refused before the cluster is contacted |
| DeploymentProofs.UpsertRejectsUnknownType | kona/core/deployment.py:250 | a type discovery does not know is refused before any object call |
| DeploymentProofs.UpsertCreatesAbsent | kona/core/deployment.py:253-255 | an absent object is created from the document under a fresh resourceVersion and reported `created` |
| DeploymentProofs.UpsertUnchanged | kona/core/deployment.py:257-263 | applying the body the cluster already holds reports `unchanged` and leaves the cluster as it was |
| DeploymentProofs.UpsertUpdates | kona/core/deployment.py:188-191 | applying a different body stores it under a new resourceVersion and reports `updated` |
| DeploymentProofs.UpsertKeepsCoherent | kona/core/deployment.py:237-266 | every stored resourceVersion stays below the version counter across an upsert |
| DeploymentProofs.ApplyTwiceUnchanged | kona/core/deployment.py:237-266 | after any successful apply the object holds the document, and applying it again reports `unchanged` and changes nothing |
| DeploymentProofs.UpsertExistsFailure | kona/core/deployment.py:145-153 | a non-404 failure of the existence check is re-raised and nothing is written |
| DeploymentProofs.UpsertForcesConflict | kona/core/deployment.py:173-184 | a 409 is retried once with force, reported `updated(force)`, and the object then holds the document |
| DeploymentProofs.UpsertRecreatesAfterFailedForce | kona/core/deployment.py:185-186 | when the forced patch fails too the object is deleted, awaited and created from the document, reported `recreated` |
| DeploymentProofs.UpsertRecreatesAfterOtherFailure | kona/core/deployment.py:173-187 | any non-409 patch failure skips the forced patch and recreates the object from the document |
| DeploymentProofs.RecreateFromEmptyScript | kona/core/deployment.py:194-212 | recreating an existing object replaces it with the document under a fresh resourceVersion |
| DeploymentProofs.RecreateDeleteFailure | kona/core/deployment.py:207-209 | a delete failure other than 404 is re-raised |
| DeploymentProofs.WaitAbsentSwallowsFailures | kona/core/deployment.py:122-127 | a non-404 failure does not end the wait; the next poll that sees 404 does |
| DeploymentProofs.WaitAbsentTimesOut | kona/core/deployment.py:117-127 | an object nobody removes is polled until the polls run out, then the wait times out |
| DeploymentProofs.WaitAbsentSeesRemoval | kona/core/deployment.py:120-127 | an object removed during the n-th sleep is seen gone at the next poll, given enough polls |
| DeploymentProofs.PatchActionByVersion | kona/core/deployment.py:189-191 | a plain patch is `unchanged` exactly when the resourceVersion did not move, `updated` otherwise |
| DeploymentProofs.PatchActionWithoutVersion | kona/core/deployment.py:189-191 | without a pre-patch version the verdict is always `updated` |
| DeploymentProofs.PollCrdTimesOut | kona/core/deployment.py:218-229 | a CRD that never becomes ready is polled until the polls run out, then times out |
| DeploymentProofs.PollCrdMissing | kona/core/deployment.py:224 | a missing CRD object is not tolerated: its first poll's 404 is raised |
| DeploymentProofs.CrdReadyByConditions | kona/core/deployment.py:226-227 | with well-formed conditions a CRD is ready iff the last `Established` condition reports `True` and no last `NamesAccepted` condition reports `False` (an unreported `NamesAccepted` counts as accepted) |
| DeploymentProofs.CrdReadyBadCondition | kona/core/deployment.py:226 | the first malformed condition decides the error: AttributeError for a non-dict, TypeError for a list or dict type |
| DeploymentProofs.CrdReadyMalformedStatus | kona/core/deployment.py:226 | a non-dict status raises AttributeError; a truthy `conditions` that is not a list raises AttributeError when it is a string or a dict and TypeError otherwise |
| DeploymentProofs.CrdNotReadyWithoutStatus | kona/core/deployment.py:226-227 | an object without a status has no conditions and is not ready |
| DeploymentProofs.ConditionLookup | kona/core/deployment.py:226-227 | looking a type up in the condition map gives the status of the last condition of that type, or the default when none has it |
| DeploymentProofs.ConditionMapFirstBad | kona/core/deployment.py:226 | the comprehension fails at its first non-dict condition or unhashable type, with that error |
| DeploymentProofs.ConditionMapLastWins | kona/core/deployment.py:226 | of several conditions of one type, the last one decides the status |
| DeploymentProofs.ConditionMapAbsent | kona/core/deployment.py:226 | a type no condition reports is absent from the condition map |
| DeploymentProofs.ConditionMapOk | kona/core/deployment.py:226 | conditions that are all dicts with hashable types always give a condition map |
| Deployment.IsCrd | kona/core/deployment.py:109-110 | a CRD always has the apiVersion and kind the required-fields check asks for, so it validates iff its metadata is a dict with a truthy name |
| Deployment.Reported | kona/core/deployment.py:296-301 | a failing item that validated re-raises the upsert's own error; one whose `metadata` is present but not a dict re-raises the handler's AttributeError instead |
| DeploymentProofs.ApplyItemWaitsOnlyForChangedCrd | kona/core/deployment.py:303-305 | an item that is not a CRD, or a CRD that came back `unchanged`, is recorded without any wait |
| DeploymentProofs.ApplyItemRefreshesAfterCrd | kona/core/deployment.py:303-305 | after a changed CRD the client's discovery equals what the server serves |
| DeploymentProofs.CustomResourceResolvesAfterCrd | kona/core/deployment.py:303-305 | after a changed CRD, a custom resource of a type the server now serves resolves |
| DeploymentProofs.ApplyStreamExample | kona/core/deployment.py:293-317 | an illustration on one concrete stream, not a general property: a namespace, a config map and the same config map again on an empty cluster record `created`, `created`, `unchanged`, in that order |
| ManifestDiscovery.FindManifests | kona/core/k8s_manifest_discovery.py:8-11 | the result holds exactly the manifests whose kind and apiVersion both match |
| ManifestDiscovery.FindManifestsAppend | kona/core/k8s_manifest_discovery.py:8-11 | the filter keeps the original order |
| ManifestDiscovery.WithEndpoints | kona/core/k8s_manifest_discovery.py:35-42 | every challenge item gets the new endpoints after its existing ones, and the item list keeps its length |
| ManifestDiscovery.WithEndpointsTwice | kona/core/k8s_manifest_discovery.py:35-42 | appending endpoints in two rounds equals appending them at once |
| ManifestDiscovery.AppendToAll | kona/core/k8s_manifest_discovery.py:35-42 | the inner loop appends one endpoint to every item |
| ManifestDiscovery.DiscoverKloddEndpoint | kona/core/k8s_manifest_discovery.py:14-42 | the nested loops give the challenge config that the discovery spec describes |
| ManifestDiscovery.DiscoverDeployedEndpoints | kona/core/k8s_manifest_discovery.py:45-48 | exactly the klodd discovery; the challenge items keep their number |
| ManifestDiscovery.NoDomainNoEndpoints | kona/core/k8s_manifest_discovery.py:28-30 | without a klodd domain no endpoint is added |
| ManifestDiscovery.KloddEndpointsFail | kona/core/k8s_manifest_discovery.py:22-23 | discovery raises iff some matching manifest has a `metadata` that is not a dict |
| ManifestDiscovery.EndpointsOfNamedMatches | kona/core/k8s_manifest_discovery.py:22-42 | with a domain there is one HTTPS endpoint `domain/challenge/name` named by `klodd_endpoint_name` per matching manifest with a name, in manifest order, and none for a match without a name |
| ManifestDiscovery.ActionIgnored | kona/core/k8s_manifest_discovery.py:17-21 | manifests that differ only in `_action` give the same endpoints |
| AnalyzeAttachment.LooksLikeText | kona/analysis/analyze_attachment.py:17-18 | true iff some byte among the first 100 lies outside 0x20..0x7E; empty data gives false |
| AnalyzeAttachment.GenericDiff | kona/analysis/analyze_attachment.py:21-33 | the counting loop returns the number of positions below the longer length where the two sides differ, a missing element counting as None |
| AnalyzeAttachment.DifferencesZeroIff | kona/analysis/analyze_attachment.py:21-33 | the count is 0 iff the two sequences are equal |
| AnalyzeAttachment.DifferencesSymmetric | kona/analysis/analyze_attachment.py:24-31 | the count does not depend on argument order |
| AnalyzeAttachment.DifferencesBounds | kona/analysis/analyze_attachment.py:24-31 | the length difference is at most the count, and the count is at most the longer length |
| AnalyzeAttachment.Diff | kona/analysis/analyze_attachment.py:36-39 | raises `UnicodeDecodeError` iff both sides pass the text test and either side fails to decode; otherwise lines are counted iff both sides pass the text test, bytes otherwise; the count is 0 iff the decoded lines (or the bytes) are equal; a byte count lies within the length bounds |
| AnalyzeAttachment.PrintableCountsBytes | kona/analysis/analyze_attachment.py:36-39 | when either side's first 100 bytes are all printable ASCII, `diff` never raises and counts the byte differences |
| AnalyzeAttachment.FilesDict.constructor | kona/analysis/analyze_attachment.py:42-44 | a new file map is empty |
| AnalyzeAttachment.BuildFilesDict | kona/analysis/analyze_attachment.py:42-55 | the file map becomes what the file-map spec gives for the items, the depth and the configured analysis depth |
| AnalyzeAttachment.FilesContents | kona/analysis/analyze_attachment.py:42-55 | every basename's list is its old list followed by the paths of the files of that name within the depth bound, in walk order; existing keys are kept |
| AnalyzeAttachment.PastBoundUnchanged | kona/analysis/analyze_attachment.py:45-46 | past the depth bound the accumulator comes back unchanged |
| AnalyzeAttachment.FilesWellKeyed | kona/analysis/analyze_attachment.py:53 | every path is filed under its own basename |
| Sync.Providers | kona/core/sync.py:116-122 | rCTF is configured iff its credentials are, and likewise CTFd; with both, rCTF comes first |
| Sync.AttachmentPaths | kona/core/sync.py:64 | the recorded attachments are the challenge path joined with each attachment, in order |
| Sync.SyncResult.constructor | kona/core/sync.py:31-33 | a new result has no groups |
| Sync.Environment.TryLoadSchema | kona/core/sync.py:101 | records one schema load of the path and returns what the loader finds there |
| Sync.Environment.DeployChallenge | kona/core/sync.py:49 | a stub for the collaborator: returns the world's deployment outcome of the path |
| Sync.Environment.RenderTemplate | kona/core/sync.py:59-63 | a stub for the collaborator: returns the world's rendered description of the challenge |
| Sync.Environment.MakeTarGzFile | kona/core/sync.py:71-74 | records one tarball creation of the archive from the files |
| Sync.Environment.ProviderSync | kona/core/sync.py:78 | records one sync of the challenge id, archive and description with the provider |
| Sync.Environment.ProviderSetup | kona/core/sync.py:80 | records one setup of the provider |
| Sync.Environment.LoadKubeconfigCall | kona/core/sync.py:130 | records one activation of the cluster |
| Sync.SyncWithProviders | kona/core/sync.py:77-80 | the provider loop issues the provider calls spec for the challenge |
| Sync.SyncItem | kona/core/sync.py:57-82 | one challenge issues its calls as the item spec says and yields its rendered description and attachment paths |
| Sync.SyncItems | kona/core/sync.py:57-82 | the challenge loop issues the calls and yields the synced challenges of the loop spec |
| Sync.SyncChallenge | kona/core/sync.py:36-84 | groups, calls and error after a spec are those of the sync spec |
| Sync.ProbeNode | kona/core/sync.py:99-103 | a non-root directory's schema is loaded and, when found, synced; the root is left alone |
| Sync.TryDiscoverChallenges | kona/core/sync.py:87-109 | groups, calls and error after the walk are those of the walk spec |
| Sync.ChildrenStopped | kona/core/sync.py:106-109 | once a subdirectory's walk raises, no later sibling is walked |
| Sync.SetupProviders | kona/core/sync.py:124-126 | every provider gets one setup, in provider order |
| Sync.ActivateOnlyCluster | kona/core/sync.py:128-130 | with exactly one cluster, that cluster is activated, with the loader's outcome |
| Sync.Prelude | kona/core/sync.py:116-130 | startup issues the provider setups and then, with one cluster, its activation |
| Sync.Sync | kona/core/sync.py:112-134 | after startup the root is walked; a failed activation stops the run before the walk; otherwise the run succeeds iff the walk does, with the walk's groups and calls |
| SyncProofs.ProviderCallsShape | kona/core/sync.py:77-80 | for each provider in order: its `sync_challenge`, then its `setup` |
| SyncProofs.ItemCallsShape | kona/core/sync.py:64-80 | an archive `challenge_id.tar.gz` in the temporary directory is built and passed iff the challenge has attachments, then each provider gets sync then setup |
| SyncProofs.ChallengesSynced | kona/core/sync.py:57-82 | the synced challenges follow the declared order, each with its description and attachment paths |
| SyncProofs.SyncChallengeGroups | kona/core/sync.py:44-84 | a skipped spec changes nothing; calls are only appended; a failure appends no group; a success appends exactly one group holding the deployment and one entry per challenge |
| SyncProofs.ScheduleBounds | kona/core/sync.py:96-109 | every probed node is a directory at a depth within the bound; below the root every probe is deeper than the root, so the root is never probed; past the bound nothing is probed |
| SyncProofs.ChildProbed | kona/core/sync.py:106-109 | every subdirectory within the bound is probed at depth + 1, whether or not its parent had a spec or was skipped |
| SyncProofs.WalkLoads | kona/core/sync.py:87-109 | a walk that does not raise loads exactly the schemas of the probed directories, in walk order |
| SyncProofs.WalkLoadsPrefix | kona/core/sync.py:87-109 | a walk, raising or not, keeps the schemas loaded before it and adds a prefix of its schedule, in walk order |

## Left out

- Docker client, docker SDK and the `docker_env` cache: these are foreign library calls. The docker client is the `Docker` class, which records build and push operations; a `Daemon` value decides which builds (by ref) and pushes (by repository and tag) fail. Log streaming is not modelled.
- Deployment.Docker.PushImage: a failed push stands only for an exception from the docker client. `docker_push_image` (kona/core/deployment.py:52-60) only iterates and logs the push stream, so a refusal reported inside that stream raises nothing and line 102 still records the ref; the model does not distinguish that case from a successful push.
- Kubernetes client code: `DynamicClient`, `ApiClient`, `load_incluster_config` and `load_kube_config` are foreign code. The API server is the `KubeApi.Cluster` store with a fault oracle. A loader's effect is the `LoadOutcome` recorded by `LoadKubeconfig`. A single API server stands for all clusters.
- Server-side apply: merging is modelled as replacing the body. The resourceVersion moves iff the body changes.
- asyncio: `asyncio.to_thread`, `asyncio.timeout` and `asyncio.sleep` are concurrency and wall-clock time. Both waits are bounded by polls: 120 for the absence wait, 240 for the CRD wait (120 s at 1 s and 0.5 s intervals).
- Deployment.WaitAbsent: the 120-second timeout is modelled as 120 polls, so time spent inside an API call is not counted.
- Deployment.WaitCrdEstablished: the timeout is modelled as 240 polls, with the same approximation.
- YAML parsing and file reading: the parsed documents of each manifest file are the `documents` parameter.
- Byte decoding and `splitlines` in `diff`: these are the `decodeLines` parameter, which may fail (`None`, the `UnicodeDecodeError`); UTF-8 itself is not modelled.
- `Path.resolve` and `absolute`: paths are joined, never normalised.
- `Path.name` is taken as the text after the last `/`.
- Directory listing: `iterdir` order is the order of a directory's entries in the tree.
- Logging (loguru) has no semantics. That covers `warn_attachments` (kona/schema/models.py:115-119) and the failure log of the apply loop, which formats the item before re-raising.
- Jinja rendering, `make_tar_gz` and `TemporaryDirectory` are collaborators, taken never to fail (see the lines below). The rendered description comes from the world. One temporary directory is used, and the tarball is a recorded call.
- The rCTF and CTFd providers are recorded calls.
- `deploy_challenge` inside the sync is taken from the world (an outcome per path). It is proved separately in `Deployment.DeployChallenge`.
- Sync.Environment.ProviderSync: a provider's `sync_challenge` (kona/core/sync.py:78) is taken never to fail. A failing provider request raises out of `sync`, so the current group is not appended and no later directory is walked; the model does not capture that.
- Sync.Environment.ProviderSetup: a provider's `setup` (kona/core/sync.py:80 and :126) is taken never to fail, with the same consequence left uncaptured.
- Sync.Environment.MakeTarGzFile: `make_tar_gz` (kona/core/sync.py:71-74) is taken never to fail, so a missing attachment file does not stop the sync in the model.
- Sync.Environment.RenderTemplate: `render_template` (kona/core/sync.py:59-63) is taken never to fail.
- Sync.Environment.TryLoadSchema: `try_load_schema` (kona/schema/parsers.py is not part of this model) is taken to return a schema or None and never to raise.
- Deployment.DocsOf: reading and parsing a manifest file (kona/core/deployment.py:293) is taken never to fail.
- SyncProofs.SyncChallengeGroups: "a failure appends no group" covers only deploy and endpoint-discovery failures, the only ones the model can raise inside `sync_challenge`.
- Endpoint discovery returns the updated challenge configuration as a value. The in-place mutation of the items' endpoint lists, and any aliasing between them, is not modelled.
- A name that is a list or a dict shows as `[...]` / `{...}` in a discovered endpoint, not as Python's repr.
- The `analyze_attachment` pass (kona/analysis/analyze_attachment.py:58-86) reads files and logs. It also calls `.path` on a string, at line 69, so it is left out.
- `kona/__main__.py`, `kona/analysis/__init__.py` and `kona/analysis/passes.py` are CLI glue, module loading and callback registration.
- The templates configuration (kona/schema/models.py:223-250) and its `strip_values` validator are not modelled.
- pydantic parsing and validation order, `SecretStr` masking and the credential URL type are not modelled.
- `os.getenv` and file existence checks: the host's files and environment are maps.
- Floating-point YAML scalars are not part of the value model.
- KubeApi.DeleteS: a delete removes the object at once. A real delete may leave it terminating for a while (finalizers); only the background script of `DeploymentProofs.WaitAbsentSeesRemoval` exercises a late removal.
- Kubernetes.KubernetesState.LoadKubeconfig: the in-cluster, default and kubeconfig-text loaders are taken never to fail; only resolving the kubeconfig secret can raise.
- The `Sync.Environment` trace records no deploy call, so where `deploy_challenge` falls among the other calls of a sync is not observed.
