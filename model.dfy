/**
 * The node tree that describes a layout of files and directories. Every
 * node has a path segment, either a fixed string or a function of the
 * caller's dependencies; a directory also has named children.
 */
module Model {

  /** A dependency value; the fixtures use numbers and strings. */
  datatype Value = NumberValue(n: int) | StringValue(s: string)

  /** The dependencies passed to dynamic path segments: parameter name to value. */
  type Deps = map<string, Value>

  /**
   * A path segment. `Dynamic` carries the parameter names its function
   * declares (the keys of its argument type) and the function itself, which
   * is opaque to the library.
   */
  datatype Path = Static(segment: string) | Dynamic(params: set<string>, render: Deps -> string)

  /** A node is a directory exactly when it has children. */
  datatype Node = File(path: Path) | Dir(path: Path, children: map<string, Node>)

  /** `file(path)`: a node with a path and no children. */
  function MakeFile(path: Path): (n: Node)
    ensures IsFileNode(n) && !IsDirNode(n)
    ensures n.path == path
  {
    File(path)
  }

  /** `dir(path, children)`: a node with a path and the given children, unchanged. */
  function MakeDir(path: Path, children: map<string, Node>): (n: Node)
    ensures IsDirNode(n) && !IsFileNode(n)
    ensures n.path == path && n.children == children
  {
    Dir(path, children)
  }

  /** `isFileNode(node)`: the node has no children. */
  predicate IsFileNode(n: Node) {
    !n.Dir?
  }

  /** `isDirNode(node)`: the node has children. */
  predicate IsDirNode(n: Node) {
    n.Dir?
  }

  /** `getNodeType(node)`. */
  function GetNodeType(n: Node): (t: string)
    ensures t == "file" || t == "dir"
    ensures t == "file" <==> IsFileNode(n)
    ensures t == "dir" <==> IsDirNode(n)
  {
    if IsFileNode(n) then "file" else "dir"
  }

  // ---------------------------------------------------------------------
  // Construction rules. The source states these as types, checked when a
  // tree is written down and never at run time; here they are predicates.

  /** Two dependency maps agree on the named parameters. */
  ghost predicate AgreeOn(d1: Deps, d2: Deps, params: set<string>) {
    forall k :: k in params ==> (k in d1 <==> k in d2) && (k in d1 ==> d1[k] == d2[k])
  }

  /** A path function reads only the parameters it declares. */
  ghost predicate ReadsOnly(render: Deps -> string, params: set<string>) {
    forall d1: Deps, d2: Deps {:trigger render(d1), render(d2)} :: AgreeOn(d1, d2, params) ==> render(d1) == render(d2)
  }

  /**
   * A well-formed path segment: a static segment is never empty, and a
   * dynamic one declares at least one parameter, reads only those, and
   * never yields the empty string.
   */
  ghost predicate ValidPath(p: Path) {
    match p
    case Static(s) => s != ""
    case Dynamic(params, render) =>
      params != {} && ReadsOnly(render, params) && forall d: Deps :: render(d) != ""
  }

  /** A well-formed tree: every node's path segment is well-formed. */
  ghost predicate ValidNode(n: Node)
    decreases n
  {
    ValidPath(n.path) &&
    (n.Dir? ==> forall k :: k in n.children ==> ValidNode(n.children[k]))
  }

  /** The parameter names a node's own segment needs (`{}` for a static one). */
  function OwnParams(n: Node): set<string> {
    match n.path
    case Static(_) => {}
    case Dynamic(params, _) => params
  }

  // ---------------------------------------------------------------------
  // Lemmas

  /** Every node is a file or a directory, never both. */
  lemma FileIsNotDir(n: Node)
    ensures IsFileNode(n) <==> !IsDirNode(n)
  {
  }

  /** The children of a well-formed directory are well-formed. */
  lemma ValidChild(n: Node, k: string)
    requires ValidNode(n) && n.Dir? && k in n.children
    ensures ValidNode(n.children[k])
  {
  }

  /** An empty static segment, a function that yields `""` and a function with no parameters are all rejected. */
  lemma RejectedPaths(render: Deps -> string)
    ensures !ValidPath(Static(""))
    ensures !ValidPath(Dynamic({"test"}, d => ""))
    ensures !ValidPath(Dynamic({}, render))
    ensures ValidPath(Static("testy_test"))
  {
    var d: Deps := map[];
    assert (d => "")(d) == "";
  }
}
