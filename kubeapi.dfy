/**
 * The cluster the reconciler talks to, seen through the dynamic client: a store of objects
 * keyed by (apiVersion, kind, namespace, name), each with a resourceVersion, plus the
 * resource types the server serves and the client's cached discovery of them.
 *
 * This is the environment of the model, not code of the system: the outcome of every API
 * call comes from the store and from a scripted fault oracle (`faults`, one entry taken per
 * call), and whatever other actors do (controllers setting CRD conditions, garbage collection,
 * newly served types) happens through `background`, one entry taken per sleep of a polling loop.
 */
module KubeApi {
  import opened Wrappers
  import opened Json

  const NOT_FOUND := 404
  const CONFLICT := 409

  /** Coordinates of an object; `namespace` is None for a cluster-scoped type. */
  datatype Key = Key(apiVersion: Value, kind: Value, namespace: Option<Value>, name: Value)

  datatype TypeKey = TypeKey(apiVersion: Value, kind: Value)

  /** An object as the server holds it: the applied body and its resourceVersion. */
  datatype Stored = Stored(body: Dict, rv: nat)

  /** What the oracle makes of the next API call: nothing, or an ApiException with a status. */
  datatype Fault = NoFault | Fail(status: int)

  /** What another actor does while the client sleeps. */
  datatype Edit = Idle | Put(key: Key, obj: Stored) | Remove(key: Key) | Serve(typ: TypeKey, namespaced: bool)

  datatype State = State(
    objects: map<Key, Stored>,
    nextRv: nat,
    faults: seq<Fault>,
    background: seq<Edit>,
    served: map<TypeKey, bool>,
    discovery: map<TypeKey, bool>)

  /** The result of one API call: the state after it and what it returned or raised (a status). */
  datatype Reply<T> = Reply(state: State, result: Result<T, int>)

  /** The object as the API returns it: its body with `metadata.resourceVersion` filled in. */
  function Render(o: Stored): Dict {
    var meta := if "metadata" in o.body && o.body["metadata"].Object? then o.body["metadata"].fields else map[];
    o.body["metadata" := Object(meta["resourceVersion" := Int(o.rv)])]
  }

  function NextFault(s: State): Fault {
    if |s.faults| == 0 then NoFault else s.faults[0]
  }

  /** The state once the oracle's entry for this call has been used. */
  function Consume(s: State): State {
    s.(faults := if |s.faults| == 0 then [] else s.faults[1..])
  }

  /** `resource.get(name=..., namespace=...)`. */
  function GetS(s: State, k: Key): Reply<Dict> {
    var s1 := Consume(s);
    match NextFault(s)
    case Fail(status) => Reply(s1, Err(status))
    case NoFault => if k in s1.objects then Reply(s1, Ok(Render(s1.objects[k]))) else Reply(s1, Err(NOT_FOUND))
  }

  /** `resource.create(body=...)`: refused with 409 when the object already exists. */
  function CreateS(s: State, k: Key, body: Dict): Reply<Dict> {
    var s1 := Consume(s);
    match NextFault(s)
    case Fail(status) => Reply(s1, Err(status))
    case NoFault =>
      if k in s1.objects then Reply(s1, Err(CONFLICT))
      else
        var o := Stored(body, s1.nextRv);
        Reply(s1.(objects := s1.objects[k := o], nextRv := s1.nextRv + 1), Ok(Render(o)))
  }

  /**
   * An apply patch: the server keeps the object, and its resourceVersion, when the applied
   * body is what it already holds, and otherwise stores the body under a new resourceVersion.
   * Whether the patch conflicts with another field manager is the oracle's decision.
   */
  function PatchS(s: State, k: Key, body: Dict, force: bool): Reply<Dict> {
    var s1 := Consume(s);
    match NextFault(s)
    case Fail(status) => Reply(s1, Err(status))
    case NoFault =>
      if k in s1.objects && s1.objects[k].body == body then Reply(s1, Ok(Render(s1.objects[k])))
      else
        var o := Stored(body, s1.nextRv);
        Reply(s1.(objects := s1.objects[k := o], nextRv := s1.nextRv + 1), Ok(Render(o)))
  }

  /** `resource.delete(...)`: 404 when there is nothing to delete. */
  function DeleteS(s: State, k: Key): Reply<()> {
    var s1 := Consume(s);
    match NextFault(s)
    case Fail(status) => Reply(s1, Err(status))
    case NoFault =>
      if k in s1.objects then Reply(s1.(objects := s1.objects - {k}), Ok(())) else Reply(s1, Err(NOT_FOUND))
  }

  /** One sleep of a polling loop: the next background edit takes effect. */
  function SleepS(s: State): State {
    if |s.background| == 0 then s
    else
      var s1 := s.(background := s.background[1..]);
      match s.background[0]
      case Idle => s1
      case Put(k, o) => s1.(objects := s1.objects[k := o])
      case Remove(k) => s1.(objects := s1.objects - {k})
      case Serve(t, namespaced) => s1.(served := s1.served[t := namespaced])
  }

  /** A fresh or invalidated discovery cache sees exactly what the server serves. */
  function RefreshS(s: State): State {
    s.(discovery := s.served)
  }

  /** The dynamic client's type lookup: whether the type is namespaced, or None when unknown. */
  function ResolveS(s: State, t: TypeKey): Option<bool> {
    if t in s.discovery then Some(s.discovery[t]) else None
  }

  /** Every stored version was issued before the counter: a new version differs from all stored ones. */
  predicate Coherent(s: State) {
    forall k :: k in s.objects ==> s.objects[k].rv < s.nextRv
  }

  class Cluster {
    var objects: map<Key, Stored>
    var nextRv: nat
    var faults: seq<Fault>
    var background: seq<Edit>
    var served: map<TypeKey, bool>
    var discovery: map<TypeKey, bool>

    function Snapshot(): State
      reads this
    {
      State(objects, nextRv, faults, background, served, discovery)
    }

    constructor (s: State)
      ensures Snapshot() == s
    {
      objects, nextRv, faults, background, served, discovery :=
        s.objects, s.nextRv, s.faults, s.background, s.served, s.discovery;
    }

    method TakeFault() returns (f: Fault)
      modifies this
      ensures f == NextFault(old(Snapshot())) && Snapshot() == Consume(old(Snapshot()))
    {
      f := if |faults| == 0 then NoFault else faults[0];
      faults := if |faults| == 0 then [] else faults[1..];
    }

    method Get(k: Key) returns (r: Result<Dict, int>)
      modifies this
      ensures Reply(Snapshot(), r) == GetS(old(Snapshot()), k)
    {
      var f := TakeFault();
      if f.Fail? {
        return Err(f.status);
      }
      if k in objects {
        return Ok(Render(objects[k]));
      }
      return Err(NOT_FOUND);
    }

    method Create(k: Key, body: Dict) returns (r: Result<Dict, int>)
      modifies this
      ensures Reply(Snapshot(), r) == CreateS(old(Snapshot()), k, body)
    {
      var f := TakeFault();
      if f.Fail? {
        return Err(f.status);
      }
      if k in objects {
        return Err(CONFLICT);
      }
      var o := Stored(body, nextRv);
      objects, nextRv := objects[k := o], nextRv + 1;
      return Ok(Render(o));
    }

    method Patch(k: Key, body: Dict, force: bool) returns (r: Result<Dict, int>)
      modifies this
      ensures Reply(Snapshot(), r) == PatchS(old(Snapshot()), k, body, force)
    {
      var f := TakeFault();
      if f.Fail? {
        return Err(f.status);
      }
      if k in objects && objects[k].body == body {
        return Ok(Render(objects[k]));
      }
      var o := Stored(body, nextRv);
      objects, nextRv := objects[k := o], nextRv + 1;
      return Ok(Render(o));
    }

    method Delete(k: Key) returns (r: Result<(), int>)
      modifies this
      ensures Reply(Snapshot(), r) == DeleteS(old(Snapshot()), k)
    {
      var f := TakeFault();
      if f.Fail? {
        return Err(f.status);
      }
      if k !in objects {
        return Err(NOT_FOUND);
      }
      objects := objects - {k};
      return Ok(());
    }

    method Sleep()
      modifies this
      ensures Snapshot() == SleepS(old(Snapshot()))
    {
      if |background| == 0 {
        return;
      }
      var e := background[0];
      background := background[1..];
      match e
      case Idle =>
      case Put(k, o) => objects := objects[k := o];
      case Remove(k) => objects := objects - {k};
      case Serve(t, namespaced) => served := served[t := namespaced];
    }

    method Refresh()
      modifies this
      ensures Snapshot() == RefreshS(old(Snapshot()))
    {
      discovery := served;
    }

    method Resolve(t: TypeKey) returns (r: Option<bool>)
      ensures r == ResolveS(Snapshot(), t)
    {
      r := if t in discovery then Some(discovery[t]) else None;
    }
  }
}
