/**
 * kona/analysis/analyze_attachment.py: the helpers the attachment analysis uses to compare
 * files shipped as attachments with the files a docker image is built from.
 */
module AnalyzeAttachment {
  import opened Wrappers
  import opened Text
  import opened FileTree
  import opened Models
  import opened Errors

  newtype byte = x: int | 0 <= x < 256

  /** `CountedDifferencesType`: what a difference count counts. */
  datatype CountedDifferencesType = Lines | Bytes {
    function TypeValue(): string {
      match this
      case Lines => "lines"
      case Bytes => "bytes"
    }
  }

  /** Only the first 100 bytes are inspected. */
  const TEXT_PROBE := 100

  predicate Printable(b: byte) {
    ' ' as int <= b as int <= '~' as int
  }

  /** Some byte of `data` is outside the printable ASCII range. */
  function AnyUnprintable(data: seq<byte>): (r: bool)
    ensures r <==> exists i :: 0 <= i < |data| && !Printable(data[i])
  {
    if |data| == 0 then false
    else if !Printable(data[0]) then true
    else
      var rest := AnyUnprintable(data[1..]);
      assert forall i :: 1 <= i < |data| ==> data[i] == data[1..][i - 1];
      rest
  }

  /**
   * `looks_like_text`, as written: it holds when some byte among the first 100 is NOT
   * printable, so empty input and pure printable ASCII do not "look like text".
   */
  function LooksLikeText(data: seq<byte>): (r: bool)
    ensures r <==> exists i :: 0 <= i < |data| && i < TEXT_PROBE && !Printable(data[i])
    ensures |data| == 0 ==> !r
  {
    var probe := if |data| <= TEXT_PROBE then data else data[..TEXT_PROBE];
    assert forall i :: 0 <= i < |probe| ==> probe[i] == data[i];
    AnyUnprintable(probe)
  }

  // ---------------------------------------------------------------- generic_diff

  function At<T>(s: seq<T>, i: nat): Option<T> {
    if i < |s| then Some(s[i]) else None
  }

  function Max(a: nat, b: nat): nat {
    if a < b then b else a
  }

  function Min(a: nat, b: nat): nat {
    if a < b then a else b
  }

  /** Positions below `n` at which the two sequences hold different elements (or only one holds one). */
  function MismatchesBelow<T(==)>(left: seq<T>, right: seq<T>, n: nat): nat {
    if n == 0 then 0
    else MismatchesBelow(left, right, n - 1) + (if At(left, n - 1) == At(right, n - 1) then 0 else 1)
  }

  /** What `generic_diff` counts: the positional mismatches over the longer length. */
  function Differences<T(==)>(left: seq<T>, right: seq<T>): nat {
    MismatchesBelow(left, right, Max(|left|, |right|))
  }

  /** `generic_diff`. */
  method GenericDiff<T(==)>(left: seq<T>, right: seq<T>) returns (result: nat)
    ensures result == Differences(left, right)
  {
    result := 0;
    var n := if |left| < |right| then |right| else |left|;
    for i := 0 to n
      invariant result == MismatchesBelow(left, right, i)
    {
      var leftLine: Option<T> := if i < |left| then Some(left[i]) else None;
      var rightLine: Option<T> := if i < |right| then Some(right[i]) else None;
      if leftLine == rightLine {
        continue;
      }
      result := result + 1;
    }
  }

  lemma {:induction false} MismatchesBelowZero<T>(left: seq<T>, right: seq<T>, n: nat)
    ensures MismatchesBelow(left, right, n) == 0 <==> forall i :: 0 <= i < n ==> At(left, i) == At(right, i)
  {
    if n > 0 {
      MismatchesBelowZero(left, right, n - 1);
    }
  }

  /** Equal inputs differ nowhere, and a count of zero means the inputs are equal. */
  lemma DifferencesZeroIff<T>(left: seq<T>, right: seq<T>)
    ensures Differences(left, right) == 0 <==> left == right
  {
    var n := Max(|left|, |right|);
    MismatchesBelowZero(left, right, n);
    if Differences(left, right) == 0 {
      var m := Min(|left|, |right|);
      assert m < n ==> At(left, m) == At(right, m);
      assert |left| == |right|;
      forall i | 0 <= i < |left|
        ensures left[i] == right[i]
      {
        assert At(left, i) == Some(left[i]) && At(right, i) == Some(right[i]);
      }
    }
  }

  lemma {:induction false} MismatchesBelowSymmetric<T>(left: seq<T>, right: seq<T>, n: nat)
    ensures MismatchesBelow(left, right, n) == MismatchesBelow(right, left, n)
  {
    if n > 0 {
      MismatchesBelowSymmetric(left, right, n - 1);
    }
  }

  /** The count does not depend on which side is which. */
  lemma DifferencesSymmetric<T>(left: seq<T>, right: seq<T>)
    ensures Differences(left, right) == Differences(right, left)
  {
    MismatchesBelowSymmetric(left, right, Max(|left|, |right|));
  }

  lemma {:induction false} MismatchesBelowBounds<T>(left: seq<T>, right: seq<T>, n: nat)
    ensures MismatchesBelow(left, right, n) <= n
    ensures n >= Min(|left|, |right|) && n <= Max(|left|, |right|) ==>
              MismatchesBelow(left, right, n) >= n - Min(|left|, |right|)
  {
    if n > 0 {
      MismatchesBelowBounds(left, right, n - 1);
    }
  }

  /** Every position past the shorter input counts, and no position counts twice. */
  lemma DifferencesBounds<T>(left: seq<T>, right: seq<T>)
    ensures Max(|left|, |right|) - Min(|left|, |right|) <= Differences(left, right) <= Max(|left|, |right|)
  {
    MismatchesBelowBounds(left, right, Max(|left|, |right|));
  }

  // ---------------------------------------------------------------- diff

  datatype DiffResult = DiffResult(kind: CountedDifferencesType, count: nat)

  /**
   * `diff`: lines are compared when both inputs look like text, raw bytes otherwise.
   * The strict `decode()` followed by `splitlines` is the parameter `decodeLines`;
   * `None` is a `UnicodeDecodeError`, which the left side raises first.
   */
  function Diff(left: seq<byte>, right: seq<byte>, decodeLines: seq<byte> -> Option<seq<string>>): (r: Result<DiffResult, Error>)
    ensures r.Err? <==> LooksLikeText(left) && LooksLikeText(right) && (decodeLines(left).None? || decodeLines(right).None?)
    ensures r.Err? ==> r.error == DecodeFailed
    ensures r.Ok? ==> (r.value.kind == Lines <==> LooksLikeText(left) && LooksLikeText(right))
    ensures r.Ok? && r.value.kind == Lines ==> (r.value.count == 0 <==> decodeLines(left) == decodeLines(right))
    ensures r.Ok? && r.value.kind == Bytes ==> (r.value.count == 0 <==> left == right)
    ensures r.Ok? && r.value.kind == Bytes ==>
              Max(|left|, |right|) - Min(|left|, |right|) <= r.value.count <= Max(|left|, |right|)
  {
    DifferencesZeroIff(left, right);
    DifferencesBounds(left, right);
    if LooksLikeText(left) && LooksLikeText(right) then
      match (decodeLines(left), decodeLines(right))
      case (Some(l), Some(rl)) =>
        DifferencesZeroIff(l, rl);
        Ok(DiffResult(Lines, Differences(l, rl)))
      case _ => Err(DecodeFailed)
    else Ok(DiffResult(Bytes, Differences(left, right)))
  }

  /** Either side with an all-printable 100-byte prefix makes `diff` count bytes, and never fail. */
  lemma PrintableCountsBytes(left: seq<byte>, right: seq<byte>, decodeLines: seq<byte> -> Option<seq<string>>)
    requires (forall i :: 0 <= i < |left| && i < TEXT_PROBE ==> Printable(left[i]))
          || (forall i :: 0 <= i < |right| && i < TEXT_PROBE ==> Printable(right[i]))
    ensures Diff(left, right, decodeLines) == Ok(DiffResult(Bytes, Differences(left, right)))
  {
  }

  // ---------------------------------------------------------------- build_files_dict

  function Lookup(m: map<string, seq<string>>, k: string): seq<string> {
    if k in m then m[k] else []
  }

  /** `result[name].append(path)` on a `defaultdict(list)`. */
  function AddFile(m: map<string, seq<string>>, name: string, path: string): map<string, seq<string>> {
    m[name := Lookup(m, name) + [path]]
  }

  /** The accumulator after `build_files_dict` over `items` at `depth`. */
  function FilesS(acc: map<string, seq<string>>, items: seq<Node>, depth: int, bound: int): map<string, seq<string>>
    decreases items
  {
    if depth > bound || |items| == 0 then acc
    else NodeS(FilesS(acc, items[..|items| - 1], depth, bound), items[|items| - 1], depth, bound)
  }

  function NodeS(acc: map<string, seq<string>>, item: Node, depth: int, bound: int): map<string, seq<string>>
    decreases item
  {
    match item
    case Dir(_, entries) => FilesS(acc, entries, depth + 1, bound)
    case File(path) => AddFile(acc, Name(item), path)
  }

  /** The files `build_files_dict` reaches, in the order it reaches them (an independent flattening). */
  function Within(items: seq<Node>, depth: int, bound: int): seq<Node>
    decreases items
  {
    if depth > bound || |items| == 0 then []
    else Within(items[..|items| - 1], depth, bound) + WithinNode(items[|items| - 1], depth, bound)
  }

  function WithinNode(item: Node, depth: int, bound: int): seq<Node>
    decreases item
  {
    match item
    case Dir(_, entries) => Within(entries, depth + 1, bound)
    case File(_) => [item]
  }

  /** The paths among `files` whose name is `k`, in order. */
  function Named(k: string, files: seq<Node>): seq<string> {
    if |files| == 0 then [] else Pick(k, files[0]) + Named(k, files[1..])
  }

  /** `[file.path]` when `file` is named `k`, and nothing otherwise. */
  function Pick(k: string, file: Node): seq<string> {
    if Name(file) == k then [file.path] else []
  }

  lemma {:induction false} NamedWellKeyed(k: string, files: seq<Node>)
    ensures forall p :: p in Named(k, files) ==> Basename(p) == k
  {
    if |files| > 0 {
      NamedWellKeyed(k, files[1..]);
      assert Named(k, files) == Pick(k, files[0]) + Named(k, files[1..]);
    }
  }

  lemma {:induction false} NamedAppend(k: string, a: seq<Node>, b: seq<Node>)
    ensures Named(k, a + b) == Named(k, a) + Named(k, b)
  {
    if |a| == 0 {
      assert a + b == b;
    } else {
      assert (a + b)[1..] == a[1..] + b;
      NamedAppend(k, a[1..], b);
    }
  }

  /**
   * The accumulator ends up holding, under every name, its old paths followed by the paths of
   * the reached files of that name in the order they are reached.
   */
  lemma {:induction false} FilesContents(acc: map<string, seq<string>>, items: seq<Node>, depth: int, bound: int)
    ensures forall k :: Lookup(FilesS(acc, items, depth, bound), k) == Lookup(acc, k) + Named(k, Within(items, depth, bound))
    ensures forall k :: k in acc ==> k in FilesS(acc, items, depth, bound)
    decreases items
  {
    if depth > bound || |items| == 0 {
      assert forall k :: Lookup(acc, k) + [] == Lookup(acc, k);
    } else {
      var init, last := items[..|items| - 1], items[|items| - 1];
      var mid := FilesS(acc, init, depth, bound);
      FilesContents(acc, init, depth, bound);
      NodeContents(mid, last, depth, bound);
      forall k
        ensures Lookup(FilesS(acc, items, depth, bound), k) == Lookup(acc, k) + Named(k, Within(items, depth, bound))
      {
        NamedAppend(k, Within(init, depth, bound), WithinNode(last, depth, bound));
      }
    }
  }

  lemma {:induction false} NodeContents(acc: map<string, seq<string>>, item: Node, depth: int, bound: int)
    ensures forall k :: Lookup(NodeS(acc, item, depth, bound), k) == Lookup(acc, k) + Named(k, WithinNode(item, depth, bound))
    ensures forall k :: k in acc ==> k in NodeS(acc, item, depth, bound)
    decreases item
  {
    match item
    case Dir(_, entries) =>
      FilesContents(acc, entries, depth + 1, bound);
    case File(path) =>
      assert [item][..0] == [];
      forall k
        ensures Lookup(NodeS(acc, item, depth, bound), k) == Lookup(acc, k) + Named(k, [item])
      {
        assert Named(k, [item]) == Named(k, []) + Pick(k, item);
      }
  }

  /** Past the depth bound nothing is added. */
  lemma PastBoundUnchanged(acc: map<string, seq<string>>, items: seq<Node>, depth: int, bound: int)
    requires depth > bound
    ensures FilesS(acc, items, depth, bound) == acc && Within(items, depth, bound) == []
  {
  }

  /** Every path stored under a name has that name. */
  predicate WellKeyed(m: map<string, seq<string>>) {
    forall k, p :: k in m && p in m[k] ==> Basename(p) == k
  }

  /** Every path stored under a name has that name, provided that held of the accumulator. */
  lemma FilesWellKeyed(acc: map<string, seq<string>>, items: seq<Node>, depth: int, bound: int)
    requires WellKeyed(acc)
    ensures WellKeyed(FilesS(acc, items, depth, bound))
  {
    var r := FilesS(acc, items, depth, bound);
    FilesContents(acc, items, depth, bound);
    forall k, p | k in r && p in r[k]
      ensures Basename(p) == k
    {
      var named := Named(k, Within(items, depth, bound));
      assert r[k] == Lookup(r, k) == Lookup(acc, k) + named;
      NamedWellKeyed(k, Within(items, depth, bound));
    }
  }

  /** The `defaultdict(list)` that `build_files_dict` appends to. */
  class FilesDict {
    var entries: map<string, seq<string>>

    constructor ()
      ensures entries == map[]
    {
      entries := map[];
    }
  }

  /**
   * `build_files_dict`. The path appended is the node's own path: `resolve().absolute()` is
   * not part of this model.
   */
  method BuildFilesDict(config: GlobalConfig, result: FilesDict, items: seq<Node>, depth: int)
    modifies result
    ensures result.entries == FilesS(old(result.entries), items, depth, config.discovery.attachmentAnalysisDepth)
    decreases items
  {
    var bound := config.discovery.attachmentAnalysisDepth;
    if depth > bound {
      return;
    }
    for i := 0 to |items|
      invariant result.entries == FilesS(old(result.entries), items[..i], depth, bound)
    {
      assert items[..i + 1][..i] == items[..i];
      var item := items[i];
      if item.Dir? {
        assert item in items;
        BuildFilesDict(config, result, item.entries, depth + 1);
        continue;
      }
      var name := Basename(item.path);
      result.entries := result.entries[name := (if name in result.entries then result.entries[name] else []) + [item.path]];
    }
    assert items[..|items|] == items;
  }
}
