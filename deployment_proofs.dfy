/**
 * What kona/core/deployment.py promises about applying a manifest item, proved about the
 * spec functions of module Deployment: which action each path of the ladder reports, what
 * the cluster holds afterwards, and that re-applying an unchanged document changes nothing.
 *
 * `s.faults == []` means the API server accepts every call; a script such as
 * `[NoFault, NoFault, Fail(409)]` makes exactly the third call of the ladder fail.
 */
module DeploymentProofs {
  import opened Wrappers
  import opened Json
  import opened Errors
  import opened KubeApi
  import opened Models
  import opened Deployment
  import opened Text

  // ---------------------------------------------------------------- the upsert ladder

  /** A document that fails validation is refused before the cluster is contacted. */
  lemma UpsertRejectsInvalid(s: State, doc: Dict)
    requires Validate(doc).Err?
    ensures UpsertS(s, doc) == Outcome(s, Err(Validate(doc).error))
  {
  }

  /** A type the client cannot discover is refused before any object call. */
  lemma UpsertRejectsUnknownType(s: State, doc: Dict)
    requires Validate(doc).Ok?
    requires ResolveS(s, TypeKey(Validate(doc).value.apiVersion, Validate(doc).value.kind)).None?
    ensures UpsertS(s, doc) == Outcome(s, Err(UnknownResource(Validate(doc).value.apiVersion, Validate(doc).value.kind)))
  {
  }

  /** An absent object is created with the document as its body and reported as created. */
  lemma UpsertCreatesAbsent(s: State, doc: Dict, k: Key)
    requires s.faults == [] && Target(s, doc) == Some(k) && k !in s.objects
    ensures UpsertS(s, doc) ==
              Outcome(s.(objects := s.objects[k := Stored(doc, s.nextRv)], nextRv := s.nextRv + 1),
                      Ok((Created, Render(Stored(doc, s.nextRv)))))
  {
    assert Consume(s) == s;
  }

  /** Applying the body the cluster already holds is reported as unchanged and changes nothing. */
  lemma UpsertUnchanged(s: State, doc: Dict, k: Key)
    requires s.faults == [] && Target(s, doc) == Some(k) && k in s.objects && s.objects[k].body == doc
    ensures UpsertS(s, doc) == Outcome(s, Ok((Unchanged, Render(s.objects[k]))))
  {
    assert Consume(s) == s;
    RenderedVersion(s.objects[k]);
  }

  /** Applying a different body stores it under a new version and is reported as updated. */
  lemma UpsertUpdates(s: State, doc: Dict, k: Key)
    requires s.faults == [] && Coherent(s) && Target(s, doc) == Some(k) && k in s.objects && s.objects[k].body != doc
    ensures UpsertS(s, doc) ==
              Outcome(s.(objects := s.objects[k := Stored(doc, s.nextRv)], nextRv := s.nextRv + 1),
                      Ok((Updated, Render(Stored(doc, s.nextRv)))))
  {
    assert Consume(s) == s;
    RenderedVersion(s.objects[k]);
    RenderedVersion(Stored(doc, s.nextRv));
  }

  /** A successful upsert keeps versions below the counter. */
  lemma UpsertKeepsCoherent(s: State, doc: Dict)
    requires s.faults == [] && Coherent(s)
    ensures Coherent(UpsertS(s, doc).state)
  {
    assert Consume(s) == s;
    match Target(s, doc)
    case None =>
    case Some(k) =>
      if k !in s.objects {
        UpsertCreatesAbsent(s, doc, k);
      } else if s.objects[k].body == doc {
        UpsertUnchanged(s, doc, k);
      } else {
        UpsertUpdates(s, doc, k);
      }
  }

  /**
   * Idempotence of apply: on a cluster that accepts every call, applying a document a second
   * time reports unchanged and leaves the cluster exactly as the first apply left it.
   */
  lemma {:induction false} ApplyTwiceUnchanged(s: State, doc: Dict, k: Key)
    requires s.faults == [] && Coherent(s) && Target(s, doc) == Some(k)
    ensures UpsertS(s, doc).result.Ok?
    ensures var s1 := UpsertS(s, doc).state;
            s1.objects[k].body == doc &&
            UpsertS(s1, doc) == Outcome(s1, Ok((Unchanged, Render(s1.objects[k]))))
  {
    var s1: State;
    if k !in s.objects {
      UpsertCreatesAbsent(s, doc, k);
      s1 := UpsertS(s, doc).state;
    } else if s.objects[k].body == doc {
      UpsertUnchanged(s, doc, k);
      s1 := UpsertS(s, doc).state;
    } else {
      UpsertUpdates(s, doc, k);
      s1 := UpsertS(s, doc).state;
    }
    assert s1.discovery == s.discovery;
    assert Target(s1, doc) == Some(k);
    UpsertUnchanged(s1, doc, k);
  }

  /** A failure of the existence check other than 404 is re-raised and nothing is written. */
  lemma UpsertExistsFailure(s: State, doc: Dict, k: Key, status: int, rest: seq<Fault>)
    requires s.faults == [Fail(status)] + rest && status != NOT_FOUND && Target(s, doc) == Some(k)
    ensures UpsertS(s, doc) == Outcome(s.(faults := rest), Err(ApiFailure(status)))
  {
    assert ([Fail(status)] + rest)[1..] == rest;
  }

  /** A conflicting apply is retried once with force, and that is reported as `updated(force)`. */
  lemma UpsertForcesConflict(s: State, doc: Dict, k: Key)
    requires s.faults == [NoFault, NoFault, Fail(CONFLICT)] && Target(s, doc) == Some(k) && k in s.objects
    ensures var out := UpsertS(s, doc);
            out.result.Ok? && out.result.value.0 == UpdatedForce &&
            k in out.state.objects && out.state.objects[k].body == doc && out.state.faults == []
  {
    assert s.faults[1..] == [NoFault, Fail(CONFLICT)];
    assert s.faults[1..][1..] == [Fail(CONFLICT)];
  }

  /**
   * When the forced apply fails too, the object is deleted, awaited and created again from the
   * document, and that is reported as recreated.
   */
  lemma UpsertRecreatesAfterFailedForce(s: State, doc: Dict, k: Key, status: int)
    requires s.faults == [NoFault, NoFault, Fail(CONFLICT), Fail(status)] && Target(s, doc) == Some(k) && k in s.objects
    ensures UpsertS(s, doc) ==
              Outcome(s.(objects := s.objects[k := Stored(doc, s.nextRv)], nextRv := s.nextRv + 1, faults := []),
                      Ok((Recreated, Render(Stored(doc, s.nextRv)))))
  {
    assert s.faults[1..] == [NoFault, Fail(CONFLICT), Fail(status)];
    assert s.faults[1..][1..] == [Fail(CONFLICT), Fail(status)];
    assert s.faults[1..][1..][1..] == [Fail(status)];
    var s4 := s.(faults := []);
    RecreateFromEmptyScript(s4, doc, k);
  }

  /** Any apply failure other than a conflict skips the forced apply and recreates the object. */
  lemma UpsertRecreatesAfterOtherFailure(s: State, doc: Dict, k: Key, status: int)
    requires s.faults == [NoFault, NoFault, Fail(status)] && status != CONFLICT && Target(s, doc) == Some(k) && k in s.objects
    ensures UpsertS(s, doc) ==
              Outcome(s.(objects := s.objects[k := Stored(doc, s.nextRv)], nextRv := s.nextRv + 1, faults := []),
                      Ok((Recreated, Render(Stored(doc, s.nextRv)))))
  {
    assert s.faults[1..] == [NoFault, Fail(status)];
    assert s.faults[1..][1..] == [Fail(status)];
    var s3 := s.(faults := []);
    RecreateFromEmptyScript(s3, doc, k);
  }

  /** Recreating an existing object on a cluster that accepts every call replaces it with the document. */
  lemma RecreateFromEmptyScript(s: State, doc: Dict, k: Key)
    requires s.faults == [] && k in s.objects
    ensures RecreateS(s, k, doc) ==
              Outcome(s.(objects := s.objects[k := Stored(doc, s.nextRv)], nextRv := s.nextRv + 1),
                      Ok(Render(Stored(doc, s.nextRv))))
  {
    var d := s.(objects := s.objects - {k});
    assert DeleteS(s, k) == Reply(d, Ok(()));
    assert WaitAbsentS(d, k, ABSENT_POLLS) == Outcome(d, Ok(()));
    assert (s.objects - {k})[k := Stored(doc, s.nextRv)] == s.objects[k := Stored(doc, s.nextRv)];
  }

  /** A failed delete other than 404 is re-raised by the recreate step. */
  lemma RecreateDeleteFailure(s: State, doc: Dict, k: Key, status: int, rest: seq<Fault>)
    requires s.faults == [Fail(status)] + rest && status != NOT_FOUND
    ensures RecreateS(s, k, doc) == Outcome(s.(faults := rest), Err(ApiFailure(status)))
  {
    assert ([Fail(status)] + rest)[1..] == rest;
  }

  // ---------------------------------------------------------------- waiting for deletion

  /** Failures other than 404 do not end the wait: the next poll that sees 404 does. */
  lemma WaitAbsentSwallowsFailures(s: State, k: Key, status: int, fuel: nat)
    requires s.faults == [Fail(status)] && status != NOT_FOUND && s.background == [] && k !in s.objects && fuel >= 2
    ensures WaitAbsentS(s, k, fuel) == Outcome(s.(faults := []), Ok(()))
  {
    var s1 := s.(faults := []);
    assert GetS(s, k) == Reply(s1, Err(status));
    assert SleepS(s1) == s1;
    assert GetS(s1, k) == Reply(s1, Err(NOT_FOUND));
  }

  /** An object that nobody removes is awaited until the polls run out: the wait times out. */
  lemma {:induction false} WaitAbsentTimesOut(s: State, k: Key, fuel: nat)
    requires s.faults == [] && s.background == [] && k in s.objects
    ensures WaitAbsentS(s, k, fuel) == Outcome(s, Err(Timeout))
    decreases fuel
  {
    if fuel > 0 {
      assert GetS(s, k) == Reply(s, Ok(Render(s.objects[k])));
      assert SleepS(s) == s;
      WaitAbsentTimesOut(s, k, fuel - 1);
    }
  }

  function Idles(n: nat): seq<Edit> {
    if n == 0 then [] else [Idle] + Idles(n - 1)
  }

  /** An object another actor removes during the n-th sleep is seen gone at poll n + 1, given the polls. */
  lemma {:induction false} WaitAbsentSeesRemoval(s: State, k: Key, n: nat, fuel: nat)
    requires s.faults == [] && k in s.objects && s.background == Idles(n) + [Remove(k)] && fuel >= n + 2
    ensures WaitAbsentS(s, k, fuel).result == Ok(())
    decreases n
  {
    assert GetS(s, k) == Reply(s, Ok(Render(s.objects[k])));
    if n == 0 {
      var s1 := SleepS(s);
      assert s.background == [Remove(k)];
      assert k !in s1.objects && s1.faults == [];
      assert GetS(s1, k).result == Err(NOT_FOUND);
    } else {
      assert s.background[0] == Idle;
      assert s.background[1..] == Idles(n - 1) + [Remove(k)];
      WaitAbsentSeesRemoval(SleepS(s), k, n - 1, fuel - 1);
    }
  }

  // ---------------------------------------------------------------- patch verdicts

  /** A non-forced apply is unchanged exactly when the version the API reports did not move. */
  lemma PatchActionByVersion(before: Stored, after: Stored)
    ensures PatchAction(ResourceVersion(Render(before)), Render(after)) == (if before.rv == after.rv then Unchanged else Updated)
  {
    RenderedVersion(before);
    RenderedVersion(after);
  }

  /** Without a pre-apply version the verdict is always updated. */
  lemma PatchActionWithoutVersion(patched: Dict)
    ensures PatchAction(Null, patched) == Updated
  {
  }

  // ---------------------------------------------------------------- CRD establishment

  /** A CRD object whose conditions never become ready is polled until the polls run out. */
  lemma {:induction false} PollCrdTimesOut(s: State, k: Key, fuel: nat)
    requires s.faults == [] && s.background == [] && k in s.objects && CrdReady(Render(s.objects[k])) == Ok(false)
    ensures PollCrdS(s, k, fuel) == Outcome(s, Err(Timeout))
    decreases fuel
  {
    if fuel > 0 {
      assert GetS(s, k) == Reply(s, Ok(Render(s.objects[k])));
      assert SleepS(s) == s;
      PollCrdTimesOut(s, k, fuel - 1);
    }
  }

  /** The wait does not tolerate a missing CRD object: the 404 of its first poll is raised. */
  lemma PollCrdMissing(s: State, k: Key, fuel: nat)
    requires s.faults == [] && k !in s.objects && fuel > 0
    ensures PollCrdS(s, k, fuel) == Outcome(s, Err(ApiFailure(NOT_FOUND)))
  {
    assert Consume(s) == s;
  }

  /** Only a CRD whose apply changed something is waited for; every other item goes straight to its record. */
  lemma ApplyItemWaitsOnlyForChangedCrd(s: State, item: Dict)
    requires UpsertS(s, item).result.Ok?
    requires !IsCrd(item) || UpsertS(s, item).result.value.0 == Unchanged
    ensures ApplyItemS(s, item) == Outcome(UpsertS(s, item).state, Ok(Enrich(item, UpsertS(s, item).result.value.0)))
  {
  }

  /** A changed CRD is followed by a discovery refresh, so the type it defines is usable by the next item. */
  lemma ApplyItemRefreshesAfterCrd(s: State, item: Dict)
    requires UpsertS(s, item).result.Ok? && IsCrd(item) && UpsertS(s, item).result.value.0 != Unchanged
    requires ApplyItemS(s, item).result.Ok?
    ensures ApplyItemS(s, item).state.discovery == ApplyItemS(s, item).state.served
  {
  }

  /** An object without a status has no conditions and is not ready. */
  lemma CrdNotReadyWithoutStatus(obj: Dict)
    requires "status" !in obj
    ensures CrdReady(obj) == Ok(false)
  {
    assert ConditionList(obj) == Ok([]);
  }

  /**
   * A status that is not a dict fails on `.get`; a truthy `conditions` that is not a list
   * fails on `.get` of its first string when it is a string or a dict, and is not iterable
   * otherwise.
   */
  lemma CrdReadyMalformedStatus(obj: Dict)
    ensures !GetOr(obj, "status", Object(map[])).Object? ==> CrdReady(obj) == Err(NotADict)
    ensures var status := GetOr(obj, "status", Object(map[]));
            var conds := if status.Object? then Get(status.fields, "conditions") else Null;
            status.Object? && Truthy(conds) && !conds.List? ==>
              CrdReady(obj) == Err(if conds.Str? || conds.Object? then NotADict else NotIterable)
  {
  }

  function TypeOf(c: Value): Value {
    if c.Object? then Get(c.fields, "type") else Null
  }

  function StatusOf(c: Value): Value {
    if c.Object? then Get(c.fields, "status") else Null
  }

  /** A condition the comprehension accepts: a dict whose type can be a key. */
  predicate Keyable(c: Value) {
    c.Object? && Hashable(TypeOf(c))
  }

  /** Some condition has type `t`. */
  predicate Reports(conds: seq<Value>, t: Value) {
    exists i :: 0 <= i < |conds| && TypeOf(conds[i]) == t
  }

  /** Condition `i` is the last one of type `t`. */
  predicate LastOfType(conds: seq<Value>, t: Value, i: int) {
    0 <= i < |conds| && TypeOf(conds[i]) == t && forall j :: i < j < |conds| ==> TypeOf(conds[j]) != t
  }

  /** The last condition of type `t` reports `status`. */
  predicate LastReports(conds: seq<Value>, t: Value, status: Value) {
    exists i :: 0 <= i < |conds| && LastOfType(conds, t, i) && StatusOf(conds[i]) == status
  }

  lemma ReportsSnoc(init: seq<Value>, c: Value, t: Value)
    ensures Reports(init + [c], t) <==> TypeOf(c) == t || Reports(init, t)
  {
    var conds := init + [c];
    if Reports(conds, t) && TypeOf(c) != t {
      var i :| 0 <= i < |conds| && TypeOf(conds[i]) == t;
      assert i < |init| && init[i] == conds[i];
    }
    if Reports(init, t) {
      var i :| 0 <= i < |init| && TypeOf(init[i]) == t;
      assert conds[i] == init[i];
    }
    if TypeOf(c) == t {
      assert conds[|init|] == c;
    }
  }

  lemma LastOfTypeSnoc(init: seq<Value>, c: Value, t: Value, i: int)
    ensures LastOfType(init + [c], t, i) <==> if TypeOf(c) == t then i == |init| else LastOfType(init, t, i)
  {
    var conds := init + [c];
    assert conds[|init|] == c;
    assert forall j :: 0 <= j < |init| ==> conds[j] == init[j];
  }

  lemma LastReportsSnoc(init: seq<Value>, c: Value, t: Value, v: Value)
    ensures LastReports(init + [c], t, v) <==> if TypeOf(c) == t then v == StatusOf(c) else LastReports(init, t, v)
  {
    var conds := init + [c];
    var n := |init|;
    assert conds[n] == c;
    if LastReports(conds, t, v) {
      var i :| LastOfType(conds, t, i) && StatusOf(conds[i]) == v;
      LastOfTypeSnoc(init, c, t, i);
      if TypeOf(c) != t {
        assert init[i] == conds[i];
      }
    }
    if TypeOf(c) == t && v == StatusOf(c) {
      LastOfTypeSnoc(init, c, t, n);
    }
    if TypeOf(c) != t && LastReports(init, t, v) {
      var i :| LastOfType(init, t, i) && StatusOf(init[i]) == v;
      LastOfTypeSnoc(init, c, t, i);
      assert conds[i] == init[i];
    }
  }

  /**
   * `conds.get(t, default)` on the comprehension's result is the status of the last condition
   * of type `t`, or `default` when none has that type.
   */
  lemma {:induction false} ConditionLookup(conds: seq<Value>, t: Value, default: Value, v: Value)
    requires forall j :: 0 <= j < |conds| ==> Keyable(conds[j])
    ensures ConditionMap(conds).Ok?
    ensures Lookup(ConditionMap(conds).value, t, default) == v <==>
              LastReports(conds, t, v) || (v == default && !Reports(conds, t))
    decreases |conds|
  {
    ConditionMapOk(conds);
    if |conds| > 0 {
      var n := |conds| - 1;
      var init := conds[..n];
      assert conds == init + [conds[n]];
      ConditionLookup(init, t, default, v);
      ReportsSnoc(init, conds[n], t);
      LastReportsSnoc(init, conds[n], t, v);
    }
  }

  /**
   * The readiness test on well-formed conditions: the last `Established` condition reports
   * `True`, and the last `NamesAccepted` condition, if there is one, does not report `False`.
   */
  lemma CrdReadyByConditions(obj: Dict)
    requires ConditionList(obj).Ok?
    requires forall c :: c in ConditionList(obj).value ==> Keyable(c)
    ensures var conds := ConditionList(obj).value;
            CrdReady(obj) == Ok(LastReports(conds, Str("Established"), Str("True")) &&
                                !LastReports(conds, Str("NamesAccepted"), Str("False")))
  {
    var conds := ConditionList(obj).value;
    assert forall j :: 0 <= j < |conds| ==> Keyable(conds[j]) by {
      forall j | 0 <= j < |conds|
        ensures Keyable(conds[j])
      {
        assert conds[j] in conds;
      }
    }
    ConditionLookup(conds, Str("Established"), Null, Str("True"));
    ConditionLookup(conds, Str("NamesAccepted"), Str("True"), Str("False"));
  }

  /** The first condition the comprehension refuses decides the error: `.get` on a non-dict, or an unusable key. */
  lemma {:induction false} ConditionMapFirstBad(conds: seq<Value>, i: nat)
    requires i < |conds| && !Keyable(conds[i])
    requires forall j :: 0 <= j < i ==> Keyable(conds[j])
    ensures ConditionMap(conds) == Err(if conds[i].Object? then Unhashable else NotADict)
    decreases |conds|
  {
    var n := |conds| - 1;
    var init := conds[..n];
    if i == n {
      ConditionMapOk(init);
    } else {
      ConditionMapFirstBad(init, i);
    }
  }

  lemma CrdReadyBadCondition(obj: Dict, i: nat)
    requires ConditionList(obj).Ok? && i < |ConditionList(obj).value|
    requires !Keyable(ConditionList(obj).value[i])
    requires forall j :: 0 <= j < i ==> Keyable(ConditionList(obj).value[j])
    ensures CrdReady(obj) == Err(if ConditionList(obj).value[i].Object? then Unhashable else NotADict)
  {
    ConditionMapFirstBad(ConditionList(obj).value, i);
  }

  /** Of several conditions of one type, the last one decides. */
  lemma {:induction false} ConditionMapLastWins(conds: seq<Value>, i: nat)
    requires forall j :: 0 <= j < |conds| ==> Keyable(conds[j])
    requires i < |conds| && forall j :: i < j < |conds| ==> TypeOf(conds[j]) != TypeOf(conds[i])
    ensures ConditionMap(conds).Ok? && TypeOf(conds[i]) in ConditionMap(conds).value
    ensures ConditionMap(conds).value[TypeOf(conds[i])] == StatusOf(conds[i])
    decreases |conds|
  {
    ConditionMapOk(conds);
    var init := conds[..|conds| - 1];
    if i < |conds| - 1 {
      ConditionMapLastWins(init, i);
    }
  }

  /** A type that no condition reports is absent from the map. */
  lemma {:induction false} ConditionMapAbsent(conds: seq<Value>, t: Value)
    requires forall j :: 0 <= j < |conds| ==> Keyable(conds[j]) && TypeOf(conds[j]) != t
    ensures ConditionMap(conds).Ok? && t !in ConditionMap(conds).value
    decreases |conds|
  {
    if |conds| > 0 {
      ConditionMapAbsent(conds[..|conds| - 1], t);
    }
  }

  lemma {:induction false} ConditionMapOk(conds: seq<Value>)
    requires forall j :: 0 <= j < |conds| ==> Keyable(conds[j])
    ensures ConditionMap(conds).Ok?
    decreases |conds|
  {
    if |conds| > 0 {
      ConditionMapOk(conds[..|conds| - 1]);
    }
  }

  // ---------------------------------------------------------------- expanding documents

  /** A List keeps exactly its dict items. */
  lemma {:induction false} DictItemsMembers(items: seq<Value>, d: Dict)
    ensures d in DictItems(items) <==> Object(d) in items
    decreases |items|
  {
    if |items| > 0 {
      DictItemsMembers(items[1..], d);
      assert items == [items[0]] + items[1..];
    }
  }

  /** A List of dicts expands to all of them, in order. */
  lemma {:induction false} DictItemsAllDicts(items: seq<Value>)
    requires forall i :: 0 <= i < |items| ==> items[i].Object?
    ensures |DictItems(items)| == |items|
    ensures forall i :: 0 <= i < |items| ==> DictItems(items)[i] == items[i].fields
    decreases |items|
  {
    if |items| > 0 {
      DictItemsAllDicts(items[1..]);
    }
  }

  /** Expanding a concatenation of lists expands each part, in order. */
  lemma {:induction false} DictItemsAppend(a: seq<Value>, b: seq<Value>)
    ensures DictItems(a + b) == DictItems(a) + DictItems(b)
    decreases |a|
  {
    if |a| == 0 {
      assert a + b == b;
    } else {
      assert (a + b)[0] == a[0];
      assert (a + b)[1..] == a[1..] + b;
      DictItemsAppend(a[1..], b);
      var head := if a[0].Object? then [a[0].fields] else [];
      ConcatAssoc(head, DictItems(a[1..]), DictItems(b));
    }
  }

  /** Each dict is kept exactly as often as it occurs in the list. */
  lemma {:induction false} DictItemsCount(items: seq<Value>, d: Dict)
    ensures multiset(DictItems(items))[d] == multiset(items)[Object(d)]
    decreases |items|
  {
    if |items| > 0 {
      DictItemsCount(items[1..], d);
      assert items == [items[0]] + items[1..];
      assert multiset(items) == multiset([items[0]]) + multiset(items[1..]);
      var head := if items[0].Object? then [items[0].fields] else [];
      assert multiset(DictItems(items)) == multiset(head) + multiset(DictItems(items[1..]));
    }
  }

  /**
   * `kind: List` with a list of items expands to its dict items: each kept as often as it
   * occurs, in list order, since the expansion of a concatenation is the concatenation of the
   * expansions.
   */
  lemma ExpandList(doc: Dict, d: Dict)
    requires IsList(doc)
    ensures Expand(Object(doc)).Ok?
    ensures d in Expand(Object(doc)).value <==> Object(d) in doc["items"].items
    ensures multiset(Expand(Object(doc)).value)[d] == multiset(doc["items"].items)[Object(d)]
    ensures forall a, b :: doc["items"].items == a + b ==> Expand(Object(doc)).value == DictItems(a) + DictItems(b)
  {
    DictItemsMembers(doc["items"].items, d);
    DictItemsCount(doc["items"].items, d);
    forall a, b | doc["items"].items == a + b
      ensures Expand(Object(doc)).value == DictItems(a) + DictItems(b)
    {
      DictItemsAppend(a, b);
    }
  }

  // ---------------------------------------------------------------- records

  /** A record is the item with `_action` set: every other field is the item's. */
  lemma EnrichKeepsFields(item: Dict, a: Action, key: string)
    requires key != "_action"
    ensures key in Enrich(item, a) <==> key in item
    ensures key in item ==> Enrich(item, a)[key] == item[key]
    ensures ParseAction(Get(Enrich(item, a), "_action")) == Some(a)
  {
    ParseActionName(a);
  }

  /** Different actions are recorded under different names. */
  lemma ActionNamesDistinct(a: Action, b: Action)
    requires ActionName(a) == ActionName(b)
    ensures a == b
  {
    ParseActionName(a);
    ParseActionName(b);
  }

  /**
   * After a changed CRD has been applied, discovery is refreshed, so a custom resource whose
   * type the server now serves resolves; against stale discovery it would be refused
   * (`UpsertRejectsUnknownType`).
   */
  lemma CustomResourceResolvesAfterCrd(s: State, crd: Dict, cr: Dict)
    requires UpsertS(s, crd).result.Ok? && IsCrd(crd) && UpsertS(s, crd).result.value.0 != Unchanged
    requires ApplyItemS(s, crd).result.Ok?
    requires Validate(cr).Ok? && TypeKey(Validate(cr).value.apiVersion, Validate(cr).value.kind) in ApplyItemS(s, crd).state.served
    ensures Target(ApplyItemS(s, crd).state, cr).Some?
  {
    ApplyItemRefreshesAfterCrd(s, crd);
  }

  // ---------------------------------------------------------------- a worked manifest stream

  function NamespaceDoc(): Dict {
    map["apiVersion" := Str("v1"), "kind" := Str("Namespace"), "metadata" := Object(map["name" := Str("ns1")])]
  }

  function ConfigMapDoc(): Dict {
    map["apiVersion" := Str("v1"), "kind" := Str("ConfigMap"),
        "metadata" := Object(map["name" := Str("cm1"), "namespace" := Str("ns1")]),
        "data" := Object(map["k" := Str("v")])]
  }

  /** An empty cluster serving namespaces (cluster-scoped) and config maps (namespaced). */
  function EmptyCluster(): State {
    var types := map[TypeKey(Str("v1"), Str("Namespace")) := false, TypeKey(Str("v1"), Str("ConfigMap")) := true];
    State(map[], 1, [], [], types, types)
  }

  function NamespaceKey(): Key {
    Key(Str("v1"), Str("Namespace"), None, Str("ns1"))
  }

  function ConfigMapKey(): Key {
    Key(Str("v1"), Str("ConfigMap"), Some(Str("ns1")), Str("cm1"))
  }

  function AfterNamespace(): State {
    EmptyCluster().(objects := map[NamespaceKey() := Stored(NamespaceDoc(), 1)], nextRv := 2)
  }

  function AfterConfigMap(): State {
    AfterNamespace().(objects := AfterNamespace().objects[ConfigMapKey() := Stored(ConfigMapDoc(), 2)], nextRv := 3)
  }

  lemma ExampleNamespaceCreated()
    ensures ApplyItemS(EmptyCluster(), NamespaceDoc()) == Outcome(AfterNamespace(), Ok(Enrich(NamespaceDoc(), Created)))
  {
    var ns := NamespaceDoc();
    assert Validate(ns).Ok? && Validate(ns).value.name == Str("ns1");
    assert Target(EmptyCluster(), ns) == Some(NamespaceKey());
    UpsertCreatesAbsent(EmptyCluster(), ns, NamespaceKey());
    assert !IsCrd(ns);
  }

  lemma ExampleConfigMapCreated()
    ensures ApplyItemS(AfterNamespace(), ConfigMapDoc()) == Outcome(AfterConfigMap(), Ok(Enrich(ConfigMapDoc(), Created)))
  {
    var cm := ConfigMapDoc();
    assert Validate(cm).Ok? && Validate(cm).value.meta == map["name" := Str("cm1"), "namespace" := Str("ns1")];
    assert Target(AfterNamespace(), cm) == Some(ConfigMapKey());
    assert ConfigMapKey() !in AfterNamespace().objects;
    UpsertCreatesAbsent(AfterNamespace(), cm, ConfigMapKey());
    assert !IsCrd(cm);
  }

  lemma ExampleConfigMapUnchanged()
    ensures ApplyItemS(AfterConfigMap(), ConfigMapDoc()) == Outcome(AfterConfigMap(), Ok(Enrich(ConfigMapDoc(), Unchanged)))
  {
    var cm := ConfigMapDoc();
    assert Validate(cm).Ok? && Validate(cm).value.meta == map["name" := Str("cm1"), "namespace" := Str("ns1")];
    assert Target(AfterConfigMap(), cm) == Some(ConfigMapKey());
    UpsertUnchanged(AfterConfigMap(), cm, ConfigMapKey());
    assert !IsCrd(cm);
  }

  lemma FeedOne(r: Run, item: Dict)
    ensures Feed(r, [item]) == StepItem(r, item)
  {
    assert [item][..0] == [];
  }

  /**
   * An illustration, not a general property: on one concrete stream (a namespace, a config map
   * and the same config map again) the records read created, created, unchanged. The general
   * statements are `FeedRecords` and `FeedDocsRecords`.
   */
  lemma ApplyStreamExample()
    ensures var out := FeedDocs(Run(EmptyCluster(), [], None), [Object(NamespaceDoc()), Object(ConfigMapDoc()), Object(ConfigMapDoc())]);
            out.err.None? &&
            out.records == [Enrich(NamespaceDoc(), Created), Enrich(ConfigMapDoc(), Created), Enrich(ConfigMapDoc(), Unchanged)]
  {
    var ns, cm := Object(NamespaceDoc()), Object(ConfigMapDoc());
    var r0 := Run(EmptyCluster(), [], None);
    assert [] + [ns] == [ns] && [ns] + [cm] == [ns, cm] && [ns, cm] + [cm] == [ns, cm, cm];
    FeedDocsSnoc(r0, [], ns);
    ExampleFirstDoc();
    FeedDocsSnoc(r0, [ns], cm);
    ExampleSecondDoc();
    FeedDocsSnoc(r0, [ns, cm], cm);
    ExampleThirdDoc();
  }

  lemma ExampleFirstDoc()
    ensures StepDoc(Run(EmptyCluster(), [], None), Object(NamespaceDoc())) ==
            Run(AfterNamespace(), [Enrich(NamespaceDoc(), Created)], None)
  {
    var ns := NamespaceDoc();
    assert Expand(Object(ns)) == Ok([ns]);
    ExampleNamespaceCreated();
    FeedOne(Run(EmptyCluster(), [], None), ns);
  }

  lemma ExampleSecondDoc()
    ensures StepDoc(Run(AfterNamespace(), [Enrich(NamespaceDoc(), Created)], None), Object(ConfigMapDoc())) ==
            Run(AfterConfigMap(), [Enrich(NamespaceDoc(), Created), Enrich(ConfigMapDoc(), Created)], None)
  {
    var cm := ConfigMapDoc();
    assert Expand(Object(cm)) == Ok([cm]);
    ExampleConfigMapCreated();
    FeedOne(Run(AfterNamespace(), [Enrich(NamespaceDoc(), Created)], None), cm);
  }

  lemma ExampleThirdDoc()
    ensures var records := [Enrich(NamespaceDoc(), Created), Enrich(ConfigMapDoc(), Created)];
            StepDoc(Run(AfterConfigMap(), records, None), Object(ConfigMapDoc())) ==
            Run(AfterConfigMap(), records + [Enrich(ConfigMapDoc(), Unchanged)], None)
  {
    var cm := ConfigMapDoc();
    assert Expand(Object(cm)) == Ok([cm]);
    ExampleConfigMapUnchanged();
    FeedOne(Run(AfterConfigMap(), [Enrich(NamespaceDoc(), Created), Enrich(cm, Created)], None), cm);
  }

  lemma FeedDocsSnoc(r: Run, docs: seq<Value>, doc: Value)
    ensures FeedDocs(r, docs + [doc]) == StepDoc(FeedDocs(r, docs), doc)
  {
    assert (docs + [doc])[..|docs|] == docs;
  }

  // ---------------------------------------------------------------- images

  /** The refs an image list pushes: those of the images with a registry, in declaration order. */
  function PushedRefs(images: seq<DockerImage>, registries: map<string, string>): seq<string> {
    if |images| == 0 then []
    else
      (if HasRegistry(images[0]) && Repository(images[0], registries).Ok?
       then [FullRef(Repository(images[0], registries).value, images[0].tag)] else [])
      + PushedRefs(images[1..], registries)
  }

  /** The image resolves and the daemon builds it, and pushes it when it has a registry. */
  predicate ImageFine(img: DockerImage, registries: map<string, string>, daemon: Daemon) {
    Repository(img, registries).Ok? &&
    FullRef(Repository(img, registries).value, img.tag) !in daemon.brokenBuilds &&
    (HasRegistry(img) ==> (Repository(img, registries).value, img.tag) !in daemon.brokenPushes)
  }

  lemma {:induction false} PushedRefsAppend(images: seq<DockerImage>, img: DockerImage, registries: map<string, string>)
    ensures PushedRefs(images + [img], registries) == PushedRefs(images, registries) + PushedRefs([img], registries)
    decreases |images|
  {
    if |images| > 0 {
      assert (images + [img])[1..] == images[1..] + [img];
      PushedRefsAppend(images[1..], img, registries);
    }
  }

  /** The docker calls one image that resolves makes: its build, then its push when it has a registry. */
  function ImageCalls(img: DockerImage, registries: map<string, string>, path: string): seq<DockerOp> {
    match Repository(img, registries)
    case Err(_) => []
    case Ok(repo) =>
      [Build(Join(path, img.path), FullRef(repo, img.tag), img.buildArgs, img.platform)] +
      (if HasRegistry(img) then [Push(repo, img.tag)] else [])
  }

  /** The docker calls of a run in which every image succeeds, image by image in declaration order. */
  function ImageOps(images: seq<DockerImage>, registries: map<string, string>, path: string): seq<DockerOp> {
    if |images| == 0 then [] else ImageCalls(images[0], registries, path) + ImageOps(images[1..], registries, path)
  }

  lemma {:induction false} ImageOpsAppend(images: seq<DockerImage>, img: DockerImage, registries: map<string, string>, path: string)
    ensures ImageOps(images + [img], registries, path) == ImageOps(images, registries, path) + ImageCalls(img, registries, path)
    decreases |images|
  {
    if |images| == 0 {
      assert [img][1..] == [];
    } else {
      assert (images + [img])[1..] == images[1..] + [img];
      ImageOpsAppend(images[1..], img, registries, path);
      ConcatAssoc(ImageCalls(images[0], registries, path), ImageOps(images[1..], registries, path), ImageCalls(img, registries, path));
    }
  }

  /**
   * When every image resolves, builds and pushes, the calls are each image's build followed by
   * its push exactly when it has a registry, in declaration order, and the pushed refs are those
   * of the images with a registry.
   */
  lemma {:induction false} ImagesAllSucceed(images: seq<DockerImage>, registries: map<string, string>, path: string, daemon: Daemon)
    requires forall i :: 0 <= i < |images| ==> ImageFine(images[i], registries, daemon)
    ensures var run := ImagesS(images, registries, path, daemon);
            run.err.None? && run.refs == PushedRefs(images, registries) &&
            run.ops == ImageOps(images, registries, path) &&
            |run.ops| == |images| + |run.refs|
    decreases |images|
  {
    if |images| > 0 {
      var init := images[..|images| - 1];
      var last := images[|images| - 1];
      ImagesAllSucceed(init, registries, path, daemon);
      assert images == init + [last];
      PushedRefsAppend(init, last, registries);
      ImageOpsAppend(init, last, registries, path);
      assert [last][1..] == [];
      var prev := ImagesS(init, registries, path, daemon);
      var repo := Repository(last, registries).value;
      var build := [Build(Join(path, last.path), FullRef(repo, last.tag), last.buildArgs, last.platform)];
      if HasRegistry(last) {
        ConcatAssoc(prev.ops, build, [Push(repo, last.tag)]);
      } else {
        assert build + [] == build;
      }
    }
  }

  /**
   * An image with an unknown registry stops the pipeline before it is built: the refs pushed for
   * the images before it stay recorded, and no later image is built.
   */
  lemma UnknownRegistryStops(images: seq<DockerImage>, i: nat, registries: map<string, string>, path: string, daemon: Daemon)
    requires i < |images| && forall j :: 0 <= j < i ==> ImageFine(images[j], registries, daemon)
    requires HasRegistry(images[i]) && images[i].registryName.value !in registries
    ensures var run := ImagesS(images, registries, path, daemon);
            run.err == Some(UnknownRegistry(images[i].registryName.value, images[i].name, images[i].tag)) &&
            run.refs == PushedRefs(images[..i], registries) &&
            run.ops == ImagesS(images[..i], registries, path, daemon).ops
  {
    ImagesAllSucceed(images[..i], registries, path, daemon);
    assert images[..i + 1][..i] == images[..i];
    StoppedImages(images, i + 1, registries, path, daemon);
  }

  /** An image without a registry is built but neither pushed nor recorded. */
  lemma ImageWithoutRegistry(img: DockerImage, registries: map<string, string>, path: string, daemon: Daemon)
    requires !HasRegistry(img) && FullRef(img.name, img.tag) !in daemon.brokenBuilds
    ensures ImagesS([img], registries, path, daemon) ==
              ImageRun([Build(Join(path, img.path), FullRef(img.name, img.tag), img.buildArgs, img.platform)], [], None)
  {
    assert [img][..0] == [];
  }

  /** A pushed ref is the registry without trailing slashes, `/`, the image name, `:`, the tag. */
  lemma PushedRefShape(img: DockerImage, registries: map<string, string>)
    requires HasRegistry(img) && img.registryName.value in registries && registries[img.registryName.value] != ""
    ensures PushedRefs([img], registries) == [RStrip(registries[img.registryName.value], '/') + "/" + img.name + ":" + img.tag]
  {
    assert [img][1..] == [];
  }
}
