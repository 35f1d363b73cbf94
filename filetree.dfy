/**
 * A directory tree as the walks in kona/core/sync.py and kona/analysis/analyze_attachment.py
 * see it: each node carries its full path, and a directory lists its entries in the order
 * `Path.iterdir` yields them.
 */
module FileTree {
  import opened Text

  datatype Node =
    | File(path: string)
    | Dir(path: string, entries: seq<Node>)

  /** `Path.name`: the last component of the node's path. */
  function Name(n: Node): (r: string)
    ensures '/' !in r
  {
    Basename(n.path)
  }
}
