/**
 * Properties of the directory walk and of `sync_challenge`, stated about the functions the
 * methods of `Sync` are proved against.
 */
module SyncProofs {
  import opened Wrappers
  import opened Errors
  import opened Text
  import opened Models
  import opened FileTree
  import opened Sync
  import ManifestDiscovery

  // ---------------------------------------------------------------- provider calls

  /** For each provider in turn: its `sync_challenge`, then its `setup`. */
  lemma {:induction false} ProviderCallsShape(ps: seq<Provider>, id: string, archive: Option<string>, description: string)
    ensures var calls := ProviderCalls(ps, id, archive, description);
            |calls| == 2 * |ps| &&
            forall i :: 0 <= i < |ps| ==>
              calls[2 * i] == SyncChallengeCall(ps[i], id, archive, description) && calls[2 * i + 1] == Setup(ps[i])
    decreases |ps|
  {
    if |ps| > 0 {
      ProviderCallsShape(ps[..|ps| - 1], id, archive, description);
    }
  }

  /**
   * A challenge with attachments is packed first into `<tmp>/<challenge id>.tar.gz` from the
   * paths `path/<attachment>`, and that archive is what every provider receives; a challenge
   * without attachments is not packed and the providers receive no archive.
   */
  lemma ItemCallsShape(w: World, ps: seq<Provider>, path: string, item: ChallengeItem)
    ensures var calls := ItemCalls(w, ps, path, item);
            var id := ChallengeId(item.category, item.name);
            var off := if |item.attachments| > 0 then 1 else 0;
            (Archive(w, item).Some? <==> |item.attachments| > 0) &&
            (|item.attachments| > 0 ==>
               Archive(w, item) == Some(Join(w.tmp, id + ".tar.gz")) &&
               calls[0] == MakeTarGz(Join(w.tmp, id + ".tar.gz"), AttachmentPaths(path, item.attachments))) &&
            |calls| == off + 2 * |ps| &&
            forall i :: 0 <= i < |ps| ==>
              calls[off + 2 * i] == SyncChallengeCall(ps[i], id, Archive(w, item), w.describe(item)) &&
              calls[off + 2 * i + 1] == Setup(ps[i])
  {
    ProviderCallsShape(ps, ChallengeId(item.category, item.name), Archive(w, item), w.describe(item));
  }

  // ---------------------------------------------------------------- groups

  /** One synchronized challenge per item, in declared order, with its rendered description and paths. */
  lemma {:induction false} ChallengesSynced(w: World, ps: seq<Provider>, path: string, items: seq<ChallengeItem>)
    ensures var run := ChallengesS(w, ps, path, items);
            |run.synced| == |items| &&
            forall i :: 0 <= i < |items| ==>
              run.synced[i] == SynchronizedChallenge(w.describe(items[i]), AttachmentPaths(path, items[i].attachments))
    decreases |items|
  {
    if |items| > 0 {
      ChallengesSynced(w, ps, path, items[..|items| - 1]);
    }
  }

  /**
   * A skipped schema changes nothing. Otherwise a successful `sync_challenge` appends exactly
   * one group, holding the deployment's outcome and one entry per declared challenge in order;
   * a failed one appends none. Calls are only ever appended.
   */
  lemma SyncChallengeGroups(w: World, config: GlobalConfig, p: Progress, path: string, challenge: ChallengeConfig)
    ensures challenge.skip ==> SyncChallengeS(w, config, p, path, challenge) == p
    ensures var q := SyncChallengeS(w, config, p, path, challenge);
            |q.calls| >= |p.calls| && q.calls[..|p.calls|] == p.calls &&
            (q.err.Some? ==> q.groups == p.groups) &&
            (!challenge.skip && q.err.None? ==>
               w.deployments(path).Ok? &&
               |q.groups| == |p.groups| + 1 && q.groups[..|p.groups|] == p.groups &&
               q.groups[|p.groups|].deployment == w.deployments(path).value &&
               |q.groups[|p.groups|].challenges| == |challenge.challenges| &&
               forall i :: 0 <= i < |challenge.challenges| ==>
                 q.groups[|p.groups|].challenges[i].attachments == AttachmentPaths(path, challenge.challenges[i].attachments))
  {
    var q := SyncChallengeS(w, config, p, path, challenge);
    if !challenge.skip && w.deployments(path).Ok? {
      var d := w.deployments(path).value;
      match ManifestDiscovery.Discovered(config.discovery, challenge, d.deployed)
      case Err(_) =>
      case Ok(c) =>
        var eps := ManifestDiscovery.KloddEndpoints(config.discovery,
          ManifestDiscovery.FindManifests(ManifestDiscovery.KLODD_API_VERSION, ManifestDiscovery.KLODD_KIND, d.deployed)).value;
        assert c.challenges == ManifestDiscovery.WithEndpoints(challenge.challenges, eps);
        ChallengesSynced(w, Providers(config), path, c.challenges);
        assert q.calls[..|p.calls|] == p.calls;
    }
  }

  // ---------------------------------------------------------------- the walk

  /** A directory probed for a schema, and the depth it was probed at. */
  datatype Visit = Visit(node: Node, depth: int)

  /** The directories the walk probes, in order: an independent description of the traversal. */
  function Schedule(node: Node, depth: int, isRoot: bool, bound: int): seq<Visit>
    decreases node
  {
    if depth > bound then []
    else
      (if isRoot then [] else [Visit(node, depth)]) +
      (match node
       case File(_) => []
       case Dir(_, entries) => ScheduleEntries(entries, depth + 1, bound))
  }

  function ScheduleEntries(entries: seq<Node>, depth: int, bound: int): seq<Visit>
    decreases entries
  {
    if |entries| == 0 then []
    else
      ScheduleEntries(entries[..|entries| - 1], depth, bound) +
      (if entries[|entries| - 1].File? then [] else Schedule(entries[|entries| - 1], depth, false, bound))
  }

  /**
   * Every probed node is a directory, probed at a depth within `depth..bound`; below a root
   * call, strictly deeper than the root, so the root itself is never probed. Past the bound
   * nothing is probed.
   */
  lemma {:induction false} ScheduleBounds(node: Node, depth: int, isRoot: bool, bound: int)
    requires !isRoot ==> node.Dir?
    ensures depth > bound ==> Schedule(node, depth, isRoot, bound) == []
    ensures forall v :: v in Schedule(node, depth, isRoot, bound) ==>
              v.node.Dir? && depth <= v.depth <= bound && (isRoot ==> v.depth > depth)
    decreases node
  {
    if depth <= bound && node.Dir? {
      ScheduleEntriesBounds(node.entries, depth + 1, bound);
    }
  }

  lemma {:induction false} ScheduleEntriesBounds(entries: seq<Node>, depth: int, bound: int)
    ensures forall v :: v in ScheduleEntries(entries, depth, bound) ==> v.node.Dir? && depth <= v.depth <= bound
    decreases entries
  {
    if |entries| > 0 {
      ScheduleEntriesBounds(entries[..|entries| - 1], depth, bound);
      var last := entries[|entries| - 1];
      if last.Dir? {
        ScheduleBounds(last, depth, false, bound);
      }
    }
  }

  /** Every subdirectory of a probed-or-root directory within the bound is probed one level deeper. */
  lemma ChildProbed(node: Node, depth: int, isRoot: bool, bound: int, child: Node)
    requires node.Dir? && depth + 1 <= bound && child in node.entries && child.Dir?
    ensures Visit(child, depth + 1) in Schedule(node, depth, isRoot, bound)
  {
    EntryProbed(node.entries, depth + 1, bound, child);
  }

  lemma {:induction false} EntryProbed(entries: seq<Node>, depth: int, bound: int, child: Node)
    requires depth <= bound && child in entries && child.Dir?
    ensures Visit(child, depth) in ScheduleEntries(entries, depth, bound)
    decreases |entries|
  {
    var last := entries[|entries| - 1];
    if child == last {
      assert Schedule(child, depth, false, bound)[0] == Visit(child, depth);
    } else {
      var i :| 0 <= i < |entries| && entries[i] == child;
      assert entries[..|entries| - 1][i] == child;
      EntryProbed(entries[..|entries| - 1], depth, bound, child);
    }
  }

  /** The paths of the `LoadSchema` calls, in order. */
  function Loads(calls: seq<Call>): seq<string> {
    if |calls| == 0 then []
    else Loads(calls[..|calls| - 1]) + (if calls[|calls| - 1].LoadSchema? then [calls[|calls| - 1].path] else [])
  }

  function Paths(visits: seq<Visit>): seq<string> {
    if |visits| == 0 then [] else Paths(visits[..|visits| - 1]) + [visits[|visits| - 1].node.path]
  }

  lemma {:induction false} LoadsAppend(a: seq<Call>, b: seq<Call>)
    ensures Loads(a + b) == Loads(a) + Loads(b)
    decreases |b|
  {
    if |b| == 0 {
      assert a + b == a;
    } else {
      var init := b[..|b| - 1];
      LoadsAppend(a, init);
      assert (a + b)[..|a + b| - 1] == a + init;
    }
  }

  lemma {:induction false} PathsAppend(a: seq<Visit>, b: seq<Visit>)
    ensures Paths(a + b) == Paths(a) + Paths(b)
    decreases |b|
  {
    if |b| == 0 {
      assert a + b == a;
    } else {
      var init := b[..|b| - 1];
      PathsAppend(a, init);
      assert (a + b)[..|a + b| - 1] == a + init;
    }
  }

  lemma {:induction false} NoLoadSchema(calls: seq<Call>)
    requires forall i :: 0 <= i < |calls| ==> !calls[i].LoadSchema?
    ensures Loads(calls) == []
    decreases |calls|
  {
    if |calls| > 0 {
      NoLoadSchema(calls[..|calls| - 1]);
    }
  }

  lemma ProviderCallsLoadNothing(ps: seq<Provider>, id: string, archive: Option<string>, description: string)
    ensures Loads(ProviderCalls(ps, id, archive, description)) == []
  {
    ProviderCallsShape(ps, id, archive, description);
    var calls := ProviderCalls(ps, id, archive, description);
    forall i | 0 <= i < |calls|
      ensures !calls[i].LoadSchema?
    {
      var k := i / 2;
      assert i == 2 * k || i == 2 * k + 1;
      assert 0 <= k < |ps|;
      assert calls[2 * k] == SyncChallengeCall(ps[k], id, archive, description) && calls[2 * k + 1] == Setup(ps[k]);
    }
    NoLoadSchema(calls);
  }

  lemma {:induction false} ChallengesLoadNothing(w: World, ps: seq<Provider>, path: string, items: seq<ChallengeItem>)
    ensures Loads(ChallengesS(w, ps, path, items).calls) == []
    decreases |items|
  {
    if |items| > 0 {
      var item := items[|items| - 1];
      var archive := Archive(w, item);
      var pack := if archive.Some? then [MakeTarGz(archive.value, AttachmentPaths(path, item.attachments))] else [];
      var sync := ProviderCalls(ps, ChallengeId(item.category, item.name), archive, w.describe(item));
      ChallengesLoadNothing(w, ps, path, items[..|items| - 1]);
      ProviderCallsLoadNothing(ps, ChallengeId(item.category, item.name), archive, w.describe(item));
      LoadsAppend(pack, sync);
      assert pack == [] || pack[..0] == [];
      LoadsAppend(ChallengesS(w, ps, path, items[..|items| - 1]).calls, ItemCalls(w, ps, path, item));
    }
  }

  /** `sync_challenge` never probes a schema. */
  lemma SyncChallengeLoadsNothing(w: World, config: GlobalConfig, p: Progress, path: string, challenge: ChallengeConfig)
    ensures Loads(SyncChallengeS(w, config, p, path, challenge).calls) == Loads(p.calls)
  {
    var q := SyncChallengeS(w, config, p, path, challenge);
    if q.calls != p.calls {
      var d := w.deployments(path).value;
      var c := ManifestDiscovery.Discovered(config.discovery, challenge, d.deployed).value;
      ChallengesLoadNothing(w, Providers(config), path, c.challenges);
      LoadsAppend(p.calls, ChallengesS(w, Providers(config), path, c.challenges).calls);
    }
  }

  /**
   * When the walk completes without an exception, the schemas it probes are exactly the
   * directories its schedule lists, in that order, whatever the schemas say and whether or not
   * they are skipped.
   */
  lemma {:induction false} WalkLoads(w: World, config: GlobalConfig, p: Progress, node: Node, depth: int, isRoot: bool)
    requires p.err.None? && WalkS(w, config, p, node, depth, isRoot).err.None?
    ensures Loads(WalkS(w, config, p, node, depth, isRoot).calls) ==
            Loads(p.calls) + Paths(Schedule(node, depth, isRoot, config.discovery.challengeFolderDepth))
    decreases node
  {
    var bound := config.discovery.challengeFolderDepth;
    if depth > bound {
      assert Schedule(node, depth, isRoot, bound) == [];
    } else {
      WalkUnfold(w, config, p, node, depth, isRoot);
      var own := if isRoot then [] else [Visit(node, depth)];
      var loaded := Probe(w, config, p, node, isRoot);
      var later := ScheduleEntries(node.entries, depth + 1, bound);
      ProbeLoads(w, config, p, node, depth, isRoot);
      ChildrenLoads(w, config, loaded, node.entries, depth + 1);
      PathsAppend(own, later);
      assert Schedule(node, depth, isRoot, bound) == own + later;
      WalkExactStep(Loads(p.calls), Paths(own), Paths(later), Loads(loaded.calls),
                    Loads(WalkS(w, config, p, node, depth, isRoot).calls));
    }
  }

  /** The sequence step of a walk that does not raise: the probe adds `own`, the entries all of `later`. */
  lemma WalkExactStep<T>(l0: seq<T>, own: seq<T>, later: seq<T>, probed: seq<T>, l: seq<T>)
    requires probed == l0 + own && l == probed + later
    ensures l == l0 + (own + later)
  {
    ConcatAssoc(l0, own, later);
  }

  /** One unfolding of a walk in bounds that does not fail: probe, then the entries. */
  lemma WalkUnfold(w: World, config: GlobalConfig, p: Progress, node: Node, depth: int, isRoot: bool)
    requires depth <= config.discovery.challengeFolderDepth && WalkS(w, config, p, node, depth, isRoot).err.None?
    ensures node.Dir? && Probe(w, config, p, node, isRoot).err.None?
    ensures WalkS(w, config, p, node, depth, isRoot) ==
            ChildrenS(w, config, Probe(w, config, p, node, isRoot), node.entries, depth + 1)
  {
  }

  /** The probe loads exactly the probed node's schema. */
  lemma ProbeLoads(w: World, config: GlobalConfig, p: Progress, node: Node, depth: int, isRoot: bool)
    ensures Loads(Probe(w, config, p, node, isRoot).calls) ==
            Loads(p.calls) + Paths(if isRoot then [] else [Visit(node, depth)])
  {
    if !isRoot {
      var q := p.(calls := p.calls + [LoadSchema(node.path)]);
      assert Loads(q.calls) == Loads(p.calls) + [node.path] by {
        LoadsAppend(p.calls, [LoadSchema(node.path)]);
        assert [LoadSchema(node.path)][..0] == [];
      }
      assert Paths([Visit(node, depth)]) == [node.path] by {
        assert [Visit(node, depth)][..0] == [];
      }
      if w.schemas(node.path).Some? {
        SyncChallengeLoadsNothing(w, config, q, node.path, w.schemas(node.path).value);
      }
    }
  }

  lemma {:induction false} ChildrenLoads(w: World, config: GlobalConfig, p: Progress, entries: seq<Node>, depth: int)
    requires p.err.None? && ChildrenS(w, config, p, entries, depth).err.None?
    ensures Loads(ChildrenS(w, config, p, entries, depth).calls) ==
            Loads(p.calls) + Paths(ScheduleEntries(entries, depth, config.discovery.challengeFolderDepth))
    decreases entries
  {
    var bound := config.discovery.challengeFolderDepth;
    if |entries| > 0 {
      var init, last := entries[..|entries| - 1], entries[|entries| - 1];
      var prev := ChildrenS(w, config, p, init, depth);
      var tail := if last.File? then [] else Schedule(last, depth, false, bound);
      assert prev.err.None?;
      assert ScheduleEntries(entries, depth, bound) == ScheduleEntries(init, depth, bound) + tail;
      ChildrenLoads(w, config, p, init, depth);
      PathsAppend(ScheduleEntries(init, depth, bound), tail);
      if last.Dir? {
        assert ChildrenS(w, config, p, entries, depth) == WalkS(w, config, prev, last, depth, false);
        WalkLoads(w, config, prev, last, depth, false);
      } else {
        assert ChildrenS(w, config, p, entries, depth) == prev;
        assert Paths(tail) == [];
      }
    }
  }

  /** A prefix stays a prefix when the longer sequence grows, and prefixes compose. */
  lemma PrefixExtend<T>(a: seq<T>, b: seq<T>, c: seq<T>)
    ensures a <= b ==> a <= b + c
    ensures a <= b && b <= c ==> a <= c
  {
    if a <= b {
      assert (b + c)[..|a|] == b[..|a|];
    }
  }

  /** The sequence step of a walk: the probe adds `own`, then the entries add a prefix of `later`. */
  lemma WalkPrefixStep<T>(l0: seq<T>, own: seq<T>, later: seq<T>, probed: seq<T>, l: seq<T>)
    requires probed == l0 + own
    requires l == probed || (probed <= l && l <= probed + later)
    ensures l0 <= l && l <= l0 + (own + later)
  {
    ConcatAssoc(l0, own, later);
    PrefixExtend(l0, probed, later);
    PrefixExtend(probed, probed, later);
    PrefixExtend(l0, probed, l);
  }

  /** The sequence step of the entry loop: stop after the earlier entries, or walk the last one. */
  lemma ChildrenPrefixStep<T>(l0: seq<T>, done: seq<T>, tail: seq<T>, prev: seq<T>, l: seq<T>)
    requires l0 <= prev && prev <= l0 + done
    requires l == prev || (prev == l0 + done && prev <= l && l <= prev + tail)
    ensures l0 <= l && l <= l0 + (done + tail)
  {
    ConcatAssoc(l0, done, tail);
    PrefixExtend(prev, l0 + done, tail);
    PrefixExtend(l0, prev, l);
  }

  /**
   * Whether or not the walk raises, the schemas it probes are a prefix of its schedule:
   * the walk stops part-way but never probes anything out of order or off the schedule.
   */
  lemma {:induction false} WalkLoadsPrefix(w: World, config: GlobalConfig, p: Progress, node: Node, depth: int, isRoot: bool)
    requires p.err.None?
    ensures Loads(p.calls) <= Loads(WalkS(w, config, p, node, depth, isRoot).calls)
    ensures Loads(WalkS(w, config, p, node, depth, isRoot).calls) <=
            Loads(p.calls) + Paths(Schedule(node, depth, isRoot, config.discovery.challengeFolderDepth))
    decreases node
  {
    var bound := config.discovery.challengeFolderDepth;
    if depth > bound {
      PrefixExtend(Loads(p.calls), Loads(p.calls), Paths(Schedule(node, depth, isRoot, bound)));
    } else {
      var own := if isRoot then [] else [Visit(node, depth)];
      var loaded := Probe(w, config, p, node, isRoot);
      var later := if node.File? then [] else ScheduleEntries(node.entries, depth + 1, bound);
      WalkCalls(w, config, p, node, depth, isRoot);
      ProbeLoads(w, config, p, node, depth, isRoot);
      if !(loaded.err.Some? || node.File?) {
        ChildrenLoadsPrefix(w, config, loaded, node.entries, depth + 1);
      }
      PathsAppend(own, later);
      assert Schedule(node, depth, isRoot, bound) == own + later;
      WalkPrefixStep(Loads(p.calls), Paths(own), Paths(later), Loads(loaded.calls),
                     Loads(WalkS(w, config, p, node, depth, isRoot).calls));
    }
  }

  /** One unfolding of a walk in bounds, as far as the calls go: what the probe made, then the entries. */
  lemma WalkCalls(w: World, config: GlobalConfig, p: Progress, node: Node, depth: int, isRoot: bool)
    requires depth <= config.discovery.challengeFolderDepth
    ensures WalkS(w, config, p, node, depth, isRoot).calls ==
            var loaded := Probe(w, config, p, node, isRoot);
            if loaded.err.Some? || node.File? then loaded.calls
            else ChildrenS(w, config, loaded, node.entries, depth + 1).calls
  {
  }

  lemma {:induction false} ChildrenLoadsPrefix(w: World, config: GlobalConfig, p: Progress, entries: seq<Node>, depth: int)
    requires p.err.None?
    ensures Loads(p.calls) <= Loads(ChildrenS(w, config, p, entries, depth).calls)
    ensures Loads(ChildrenS(w, config, p, entries, depth).calls) <=
            Loads(p.calls) + Paths(ScheduleEntries(entries, depth, config.discovery.challengeFolderDepth))
    decreases entries
  {
    var bound := config.discovery.challengeFolderDepth;
    if |entries| == 0 {
      PrefixExtend(Loads(p.calls), Loads(p.calls), Paths(ScheduleEntries(entries, depth, bound)));
    } else {
      var init, last := entries[..|entries| - 1], entries[|entries| - 1];
      var prev := ChildrenS(w, config, p, init, depth);
      var tail := if last.File? then [] else Schedule(last, depth, false, bound);
      assert ScheduleEntries(entries, depth, bound) == ScheduleEntries(init, depth, bound) + tail;
      PathsAppend(ScheduleEntries(init, depth, bound), tail);
      ChildrenLoadsPrefix(w, config, p, init, depth);
      if prev.err.Some? || last.File? {
        assert ChildrenS(w, config, p, entries, depth) == prev;
      } else {
        assert ChildrenS(w, config, p, entries, depth) == WalkS(w, config, prev, last, depth, false);
        ChildrenLoads(w, config, p, init, depth);
        WalkLoadsPrefix(w, config, prev, last, depth, false);
      }
      ChildrenPrefixStep(Loads(p.calls), Paths(ScheduleEntries(init, depth, bound)), Paths(tail), Loads(prev.calls),
                         Loads(ChildrenS(w, config, p, entries, depth).calls));
    }
  }
}
