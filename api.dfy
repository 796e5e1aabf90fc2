/**
 * Resolving paths in a node tree: walking a dot-separated key path from the
 * root, joining the segments of the nodes it visits, and the relative path
 * between two resolved nodes.
 */
module Api {
  import opened Wrappers
  import opened Strings
  import opened Model
  import RelativePath
  import Seqs

  /** Why a key path does not lead to a node. */
  datatype TraversalError =
    | NotTraversable        // a key follows a file, which has no children
    | KeyNotFound(key: string)

  /** The message of the error the source throws; a missing key is named in it. */
  function ErrorMessage(e: TraversalError): (m: string)
    ensures e.NotTraversable? ==> m == "Attempted to traverse children of a file."
    ensures e.KeyNotFound? ==> |m| == |e.key| + 27 && m[4..4 + |e.key|] == e.key
    ensures e.KeyNotFound? ==> m[..4] == "Key " && m[4 + |e.key|..] == " not found in children."
  {
    match e
    case NotTraversable => "Attempted to traverse children of a file."
    case KeyNotFound(key) => "Key " + key + " not found in children."
  }

  /** Different errors are thrown with different messages. */
  lemma ErrorMessageIdentifies(e1: TraversalError, e2: TraversalError)
    ensures ErrorMessage(e1) == ErrorMessage(e2) ==> e1 == e2
  {
    var m1, m2 := ErrorMessage(e1), ErrorMessage(e2);
    if m1 == m2 && e1.KeyNotFound? && e2.KeyNotFound? {
      assert e1.key == m1[4..4 + |e1.key|];
    }
  }

  /**
   * The keys of a key path: none for `""`, otherwise the pieces between
   * dots, kept verbatim (so `"a..b"` has an empty middle key).
   */
  function Keys(keypath: string): (keys: seq<string>)
    ensures keys == [] <==> keypath == ""
    ensures forall i :: 0 <= i < |keys| ==> '.' !in keys[i]
    ensures Join(keys, ".") == keypath
  {
    if keypath == "" then [] else Split(keypath, '.')
  }

  /** The nodes a traversal hands to its callback, in order, and the error that stopped it, if any. */
  datatype Walk = Walk(visited: seq<Node>, failure: Option<TraversalError>)

  /**
   * The traversal from `node` along `keys`: it visits `node`, then the child
   * under each key in turn, and stops at the first key that follows a file
   * or is missing from the current directory.
   */
  function WalkFrom(node: Node, keys: seq<string>): (w: Walk)
    ensures 1 <= |w.visited| <= |keys| + 1 && w.visited[0] == node
    ensures w.failure == None <==> |w.visited| == |keys| + 1
    decreases |keys|
  {
    if keys == [] then Walk([node], None)
    else
      match node
      case File(_) => Walk([node], Some(NotTraversable))
      case Dir(_, children) =>
        if keys[0] !in children then Walk([node], Some(KeyNotFound(keys[0])))
        else
          var rest := WalkFrom(children[keys[0]], keys[1..]);
          Walk([node] + rest.visited, rest.failure)
  }

  /** One step of a walk: stop at a file or a missing key, otherwise visit the child and walk on from it. */
  lemma WalkStep(node: Node, keys: seq<string>)
    requires keys != []
    ensures !node.Dir? ==> WalkFrom(node, keys) == Walk([node], Some(NotTraversable))
    ensures node.Dir? && keys[0] !in node.children ==>
      WalkFrom(node, keys) == Walk([node], Some(KeyNotFound(keys[0])))
    ensures node.Dir? && keys[0] in node.children ==>
      var rest := WalkFrom(node.children[keys[0]], keys[1..]);
      WalkFrom(node, keys) == Walk([node] + rest.visited, rest.failure)
  {
  }

  /**
   * A walk follows the keys: each visited node after the first is the child,
   * under the next key, of the directory before it; and a walk that stops
   * early stops at a file (`NotTraversable`) or at a directory that lacks
   * the next key (`KeyNotFound` with that key).
   */
  lemma {:induction false} WalkFollowsKeys(node: Node, keys: seq<string>)
    ensures var w := WalkFrom(node, keys);
      forall i :: 0 <= i < |w.visited| - 1 ==>
        w.visited[i].Dir? && keys[i] in w.visited[i].children &&
        w.visited[i + 1] == w.visited[i].children[keys[i]]
    ensures var w := WalkFrom(node, keys);
      w.failure != None ==>
        var last, key := w.visited[|w.visited| - 1], keys[|w.visited| - 1];
        if last.Dir? then key !in last.children && w.failure == Some(KeyNotFound(key))
        else w.failure == Some(NotTraversable)
    decreases |keys|
  {
    if keys != [] && node.Dir? && keys[0] in node.children {
      var child := node.children[keys[0]];
      WalkFollowsKeys(child, keys[1..]);
      var rest := WalkFrom(child, keys[1..]);
      var w := WalkFrom(node, keys);
      assert w.visited == [node] + rest.visited;
      forall i | 1 <= i < |w.visited| - 1
        ensures w.visited[i].Dir? && keys[i] in w.visited[i].children &&
                w.visited[i + 1] == w.visited[i].children[keys[i]]
      {
        assert w.visited[i] == rest.visited[i - 1] && w.visited[i + 1] == rest.visited[i];
        assert keys[i] == keys[1..][i - 1];
      }
    }
  }

  /** `done` followed by the walk `w`. */
  function After(done: seq<Node>, w: Walk): Walk
  {
    Walk(done + w.visited, w.failure)
  }

  /**
   * `traverseToKeypath(model, keypath, callback)`: `visited` lists the nodes
   * the callback is called with, in order, and `failure` is the error thrown
   * after the last of them, if any.
   */
  method TraverseToKeypath(model: Node, keypath: string) returns (visited: seq<Node>, failure: Option<TraversalError>)
    ensures Walk(visited, failure) == WalkFrom(model, Keys(keypath))
    ensures keypath == "" ==> visited == [model] && failure == None
    ensures 1 <= |visited| <= |Keys(keypath)| + 1 && visited[0] == model
    ensures failure == None <==> |visited| == |Keys(keypath)| + 1
  {
    var currentNode := model;
    visited := [currentNode];
    failure := None;
    var keys := Keys(keypath);
    for keyIdx := 0 to |keys|
      invariant |visited| == keyIdx + 1 && visited[keyIdx] == currentNode
      invariant WalkFrom(model, keys) == After(visited[..keyIdx], WalkFrom(currentNode, keys[keyIdx..]))
    {
      var key := keys[keyIdx];
      ghost var rest := keys[keyIdx..];
      assert rest[0] == key && rest[1..] == keys[keyIdx + 1..];
      WalkStep(currentNode, rest);
      Seqs.InitLast(visited);
      if !currentNode.Dir? {
        failure := Some(NotTraversable);
        return;
      }
      if key !in currentNode.children {
        failure := Some(KeyNotFound(key));
        return;
      }
      ghost var before, parent := visited, currentNode;
      currentNode := currentNode.children[key];
      Seqs.AppendAssoc(before[..keyIdx], [parent], WalkFrom(currentNode, keys[keyIdx + 1..]).visited);
      visited := visited + [currentNode];
      Seqs.TakeSnoc(before, currentNode, keyIdx + 1);
    }
    assert keys[|keys|..] == [];
    Seqs.InitLast(visited);
  }

  // ---------------------------------------------------------------------
  // Resolving a path

  /** A missing or non-object dependencies argument counts as no dependencies. */
  function NormaliseDeps(dependencies: Option<Deps>): (deps: Deps)
    ensures dependencies.Some? ==> deps == dependencies.value
    ensures dependencies.None? ==> deps == map[]
  {
    match dependencies
    case None => map[]
    case Some(d) => d
  }

  /** A node's own segment: a static path verbatim, a dynamic one applied to all the dependencies. */
  function Segment(p: Path, deps: Deps): string
  {
    match p
    case Static(s) => s
    case Dynamic(_, render) => render(deps)
  }

  /** What a node adds to the path: its segment, followed by `/` for a directory. */
  function RenderNode(n: Node, deps: Deps): string
  {
    Segment(n.path, deps) + (if n.Dir? then "/" else "")
  }

  /** The rendered nodes, one after another. */
  function Concat(nodes: seq<Node>, deps: Deps): string
  {
    if nodes == [] then "" else Concat(nodes[..|nodes| - 1], deps) + RenderNode(nodes[|nodes| - 1], deps)
  }

  /** Rendering one more node of a list adds that node's rendering. */
  lemma ConcatNext(nodes: seq<Node>, i: nat, deps: Deps)
    requires i < |nodes|
    ensures Concat(nodes[..i + 1], deps) == Concat(nodes[..i], deps) + RenderNode(nodes[i], deps)
  {
    Seqs.TakeTake(nodes, i);
  }

  /** The path at the end of `keys`, or the traversal error. */
  function ResolveKeys(model: Node, keys: seq<string>, deps: Deps): Result<string, TraversalError>
  {
    var w := WalkFrom(model, keys);
    if w.failure.Some? then Failure(w.failure.value) else Success(Concat(w.visited, deps))
  }

  /** The node at the end of `keys`, or the traversal error. */
  function Lookup(model: Node, keys: seq<string>): Result<Node, TraversalError>
  {
    var w := WalkFrom(model, keys);
    if w.failure.Some? then Failure(w.failure.value) else Success(w.visited[|w.visited| - 1])
  }

  /** The path a key path resolves to under the given dependencies. */
  function Resolve(model: Node, keypath: string, deps: Deps): Result<string, TraversalError>
  {
    ResolveKeys(model, Keys(keypath), deps)
  }

  /**
   * `getPath(model, keypath, dependencies)`: the traversal's callback adds
   * each visited node's segment, and a `/` after a directory's, to the path.
   */
  method GetPath(model: Node, keypath: string, dependencies: Option<Deps>) returns (r: Result<string, TraversalError>)
    ensures r == Resolve(model, keypath, NormaliseDeps(dependencies))
  {
    var deps := NormaliseDeps(dependencies);
    var path := "";
    var visited, failure := TraverseToKeypath(model, keypath);
    if failure.Some? {
      return Failure(failure.value);
    }
    for i := 0 to |visited|
      invariant path == Concat(visited[..i], deps)
    {
      var node := visited[i];
      var pathSegment := Segment(node.path, deps);
      ConcatNext(visited, i, deps);
      if IsDirNode(node) {
        path := path + (pathSegment + "/");
      } else {
        Seqs.AppendEmpty(pathSegment);
        path := path + pathSegment;
      }
    }
    Seqs.TakeAll(visited);
    return Success(path);
  }

  // ---------------------------------------------------------------------
  // Relative paths between two key paths

  /** A `from` or `to` argument: a bare key path, or a key path with its dependencies (possibly left out). */
  datatype KeypathArg = Bare(keypath: string) | WithDeps(keypath: string, dependencies: Option<Deps>)

  /** The key path and dependencies an argument stands for. */
  datatype Request = Request(keypath: string, dependencies: Option<Deps>)

  /** `normaliseKeypathWithDependenciesArg(arg)`: a bare key path comes with empty dependencies. */
  function NormaliseKeypathArg(arg: KeypathArg): (req: Request)
    ensures req.keypath == arg.keypath
    ensures arg.Bare? ==> req.dependencies == Some(map[])
    ensures arg.WithDeps? ==> req.dependencies == arg.dependencies
  {
    match arg
    case Bare(keypath) => Request(keypath, Some(map[]))
    case WithDeps(keypath, dependencies) => Request(keypath, dependencies)
  }

  /** The path one argument resolves to. */
  function ResolveArg(model: Node, arg: KeypathArg): Result<string, TraversalError>
  {
    var req := NormaliseKeypathArg(arg);
    Resolve(model, req.keypath, NormaliseDeps(req.dependencies))
  }

  /**
   * The relative path from the node `from` names to the node `to` names:
   * the first traversal error, `from`'s first, or the relative path
   * between the two resolved paths.
   */
  function Relative(mode: RelativePath.Mode, model: Node, from: KeypathArg, to: KeypathArg): Result<string, TraversalError>
  {
    var fromPath, toPath := ResolveArg(model, from), ResolveArg(model, to);
    if fromPath.Failure? then Failure(fromPath.error)
    else if toPath.Failure? then Failure(toPath.error)
    else Success(RelativePath.GetRelativePathBetween(fromPath.value, toPath.value, mode))
  }

  /**
   * `_getRelativePath(mode)(model, from, to)`: both paths are resolved,
   * `from` first, and the relative path between them is computed; the first
   * traversal error is the result instead.
   */
  method GetRelativePath(mode: RelativePath.Mode, model: Node, from: KeypathArg, to: KeypathArg)
    returns (r: Result<string, TraversalError>)
    ensures r == Relative(mode, model, from, to)
  {
    var normFrom := NormaliseKeypathArg(from);
    var normTo := NormaliseKeypathArg(to);
    var fromPath := GetPath(model, normFrom.keypath, normFrom.dependencies);
    if fromPath.Failure? {
      return Failure(fromPath.error);
    }
    var toPath := GetPath(model, normTo.keypath, normTo.dependencies);
    if toPath.Failure? {
      return Failure(toPath.error);
    }
    return Success(RelativePath.GetRelativePathBetween(fromPath.value, toPath.value, mode));
  }

  /** `getRelativeFsPath(model, from, to)`. */
  method GetRelativeFsPath(model: Node, from: KeypathArg, to: KeypathArg) returns (r: Result<string, TraversalError>)
    ensures r == Relative(RelativePath.Fs, model, from, to)
  {
    r := GetRelativePath(RelativePath.Fs, model, from, to);
  }

  /** `getRelativeUrlPath(model, from, to)`. */
  method GetRelativeUrlPath(model: Node, from: KeypathArg, to: KeypathArg) returns (r: Result<string, TraversalError>)
    ensures r == Relative(RelativePath.Url, model, from, to)
  {
    r := GetRelativePath(RelativePath.Url, model, from, to);
  }

  // ---------------------------------------------------------------------
  // Lemmas

  /** The rendering of a concatenation is the concatenation of the renderings. */
  lemma {:induction false} ConcatAppend(a: seq<Node>, b: seq<Node>, deps: Deps)
    ensures Concat(a + b, deps) == Concat(a, deps) + Concat(b, deps)
    decreases |b|
  {
    if b == [] {
      Seqs.AppendEmpty(a);
    } else {
      Seqs.InitAppend(a, b);
      ConcatAppend(a, b[..|b| - 1], deps);
    }
  }

  /** An empty key path resolves to the root's own segment, with `/` when the root is a directory. */
  lemma ResolveRoot(model: Node, deps: Deps)
    ensures Resolve(model, "", deps) == Success(Segment(model.path, deps) + if model.Dir? then "/" else "")
  {
    assert Keys("") == [];
    assert WalkFrom(model, []).visited == [model];
    assert [model][..0] == [];
    assert Concat([model], deps) == RenderNode(model, deps);
    assert Resolve(model, "", deps) == ResolveKeys(model, [], deps);
  }

  /** `prefix` in front of a resolved path; an error stays as it is. */
  function Prepend(prefix: string, r: Result<string, TraversalError>): Result<string, TraversalError>
  {
    if r.Success? then Success(prefix + r.value) else r
  }

  /**
   * Resolving `key` or `key.rest` takes one step: it fails at a file or a
   * missing key, and otherwise puts the directory's rendering in front of
   * the child's resolution of the rest (`""` when only `key` is given).
   */
  lemma ResolveFirstKey(model: Node, key: string, rest: string, deps: Deps)
    requires key != "" && '.' !in key
    ensures Resolve(model, if rest == "" then key else key + "." + rest, deps) ==
      if !model.Dir? then Failure(NotTraversable)
      else if key !in model.children then Failure(KeyNotFound(key))
      else Prepend(RenderNode(model, deps), Resolve(model.children[key], rest, deps))
  {
    var keypath := if rest == "" then key else key + "." + rest;
    SplitNoSeparator(key, '.');
    assert Keys(keypath) == [key] + Keys(rest) by {
      if rest != "" {
        assert keypath == key + ['.'] + rest;
        SplitAround(key, rest, '.');
      }
    }
    var keys := Keys(keypath);
    assert keys[0] == key && keys[1..] == Keys(rest);
    WalkStep(model, keys);
    if model.Dir? && key in model.children {
      var w := WalkFrom(model.children[key], Keys(rest));
      ConcatAppend([model], w.visited, deps);
      assert [model][..0] == [];
      assert Concat([model], deps) == RenderNode(model, deps);
    }
  }

  /**
   * A successful walk along `a` followed by `b` is the walk along `a` and
   * then the walk along `b` from the node it reached.
   */
  lemma {:induction false} WalkAppend(node: Node, a: seq<string>, b: seq<string>)
    requires WalkFrom(node, a).failure == None
    ensures
      var w := WalkFrom(node, a);
      WalkFrom(node, a + b) == After(w.visited[..|a|], WalkFrom(w.visited[|a|], b))
    decreases |a|
  {
    if a == [] {
      Seqs.AppendEmpty(b);
    } else {
      var child := node.children[a[0]];
      var rest := WalkFrom(child, a[1..]);
      var w := WalkFrom(node, a);
      var tail := WalkFrom(rest.visited[|a| - 1], b);
      assert w.visited == [node] + rest.visited && rest.failure == None by {
        WalkStep(node, a);
      }
      assert WalkFrom(child, a[1..] + b) == After(rest.visited[..|a| - 1], tail) by {
        WalkAppend(child, a[1..], b);
      }
      assert WalkFrom(node, a + b) == After([node], WalkFrom(child, a[1..] + b)) by {
        Seqs.TailAppend(a, b);
        WalkStep(node, a + b);
      }
      assert w.visited[..|a|] == [node] + rest.visited[..|a| - 1] && w.visited[|a|] == rest.visited[|a| - 1] by {
        Seqs.ConsTake(node, rest.visited, |a| - 1);
      }
      Seqs.AppendAssoc([node], rest.visited[..|a| - 1], tail.visited);
    }
  }

  /** What a walk along `keys` from `n` adds below `n`'s own segment. */
  function Below(n: Node, keys: seq<string>, deps: Deps): string
  {
    Concat(WalkFrom(n, keys).visited[1..], deps)
  }

  /** After a successful walk along `a`, walking on along `b` visits the nodes below the one reached. */
  lemma WalkExtends(model: Node, a: seq<string>, b: seq<string>)
    requires WalkFrom(model, a).failure == None
    ensures
      var wa := WalkFrom(model, a);
      var wb := WalkFrom(wa.visited[|a|], b);
      WalkFrom(model, a + b) == Walk(wa.visited + wb.visited[1..], wb.failure)
  {
    var wa := WalkFrom(model, a);
    var n := wa.visited[|a|];
    var wb := WalkFrom(n, b);
    WalkAppend(model, a, b);
    Seqs.HeadTail(wb.visited);
    Seqs.InitLast(wa.visited);
    Seqs.AppendAssoc(wa.visited[..|a|], [n], wb.visited[1..]);
  }

  /**
   * Resolving `a` then `b`: it fails exactly when the walk along `b` from the
   * node at `a` fails, with the same error, and otherwise extends the path
   * of `a` by what lies below that node.
   */
  lemma ResolveDescend(model: Node, a: seq<string>, b: seq<string>, deps: Deps)
    requires Lookup(model, a).Success?
    ensures
      var n := Lookup(model, a).value;
      var w := WalkFrom(n, b);
      ResolveKeys(model, a + b, deps) ==
        if w.failure.Some? then Failure(w.failure.value)
        else Success(ResolveKeys(model, a, deps).value + Below(n, b, deps))
  {
    var wa := WalkFrom(model, a);
    var wb := WalkFrom(wa.visited[|a|], b);
    WalkExtends(model, a, b);
    if wb.failure.None? {
      ConcatAppend(wa.visited, wb.visited[1..], deps);
    }
  }

  /** The nodes a walk from a well-formed node visits are well-formed. */
  lemma {:induction false} WalkValid(node: Node, keys: seq<string>)
    requires ValidNode(node)
    ensures forall i :: 0 <= i < |WalkFrom(node, keys).visited| ==> ValidNode(WalkFrom(node, keys).visited[i])
    decreases |keys|
  {
    if keys != [] && node.Dir? && keys[0] in node.children {
      var child := node.children[keys[0]];
      ValidChild(node, keys[0]);
      WalkValid(child, keys[1..]);
      assert WalkFrom(node, keys).visited == [node] + WalkFrom(child, keys[1..]).visited;
    }
  }

  /**
   * In a well-formed tree a resolved path ends with the target's rendering,
   * so it ends in `/` exactly when the target is a directory or a file whose
   * segment itself ends in `/`.
   */
  lemma ResolvedTrailingSlash(model: Node, keys: seq<string>, deps: Deps)
    requires ValidNode(model)
    requires Lookup(model, keys).Success?
    ensures
      var n, p := Lookup(model, keys).value, ResolveKeys(model, keys, deps).value;
      ResolveKeys(model, keys, deps).Success? &&
      (EndsWith(p, '/') <==> n.Dir? || EndsWith(Segment(n.path, deps), '/'))
  {
    var w := WalkFrom(model, keys);
    var n := w.visited[|w.visited| - 1];
    WalkValid(model, keys);
    SegmentNonEmpty(n, deps);
    RenderedEnd(Concat(w.visited[..|w.visited| - 1], deps), n, deps);
  }

  /** A well-formed node's segment is never empty. */
  lemma SegmentNonEmpty(n: Node, deps: Deps)
    requires ValidNode(n)
    ensures Segment(n.path, deps) != ""
  {
    if n.path.Dynamic? {
      assert n.path.render(deps) != "";
    }
  }

  /** A path that ends with a node's rendering ends in `/` exactly when the node is a directory or its segment ends in `/`. */
  lemma RenderedEnd(front: string, n: Node, deps: Deps)
    requires Segment(n.path, deps) != ""
    ensures EndsWith(front + RenderNode(n, deps), '/') <==> n.Dir? || EndsWith(Segment(n.path, deps), '/')
  {
    var r := RenderNode(n, deps);
    assert (front + r)[|front + r| - 1] == r[|r| - 1];
  }

  /** The parameters the segments of `nodes` declare. */
  function Params(nodes: seq<Node>): set<string>
  {
    if nodes == [] then {} else Params(nodes[..|nodes| - 1]) + OwnParams(nodes[|nodes| - 1])
  }

  /** Well-formed nodes render alike under dependencies that agree on the parameters they declare. */
  lemma {:induction false} ConcatAgree(nodes: seq<Node>, d1: Deps, d2: Deps)
    requires forall i :: 0 <= i < |nodes| ==> ValidNode(nodes[i])
    requires AgreeOn(d1, d2, Params(nodes))
    ensures Concat(nodes, d1) == Concat(nodes, d2)
    decreases |nodes|
  {
    if nodes != [] {
      var init, n := nodes[..|nodes| - 1], nodes[|nodes| - 1];
      assert forall i :: 0 <= i < |init| ==> init[i] == nodes[i];
      ConcatAgree(init, d1, d2);
      assert ValidPath(n.path);
      if n.path.Dynamic? {
        assert AgreeOn(d1, d2, n.path.params);
        assert n.path.render(d1) == n.path.render(d2);
      }
    }
  }

  /**
   * Only the parameters of the visited nodes matter: in a well-formed tree,
   * dependencies that agree on them resolve a key path alike.
   */
  lemma DepsIrrelevant(model: Node, keys: seq<string>, d1: Deps, d2: Deps)
    requires ValidNode(model)
    requires AgreeOn(d1, d2, Params(WalkFrom(model, keys).visited))
    ensures ResolveKeys(model, keys, d1) == ResolveKeys(model, keys, d2)
  {
    WalkValid(model, keys);
    ConcatAgree(WalkFrom(model, keys).visited, d1, d2);
  }

  /** Joining keys with `.` and splitting the key path again gives the keys back. */
  lemma KeysJoin(keys: seq<string>)
    requires forall i :: 0 <= i < |keys| ==> '.' !in keys[i]
    requires keys != [""]
    ensures Keys(Join(keys, ".")) == keys
  {
    if keys != [] {
      if |keys| > 1 {
        JoinAppend([keys[0]], keys[1..], ".");
        assert [keys[0]] + keys[1..] == keys;
      }
      SplitJoin(keys, '.');
    }
  }

  /**
   * From a directory to a node below it, the relative path in either mode is
   * the descent below the directory, with a trailing `/` when the target's
   * path has one.
   */
  lemma RelativeToDescendant(model: Node, a: seq<string>, b: seq<string>, deps: Deps, mode: RelativePath.Mode)
    requires Lookup(model, a).Success? && Lookup(model, a).value.Dir?
    requires WalkFrom(Lookup(model, a).value, b).failure == None
    ensures ResolveKeys(model, a + b, deps).Success?
    ensures
      var n := Lookup(model, a).value;
      var fromPath, toPath := ResolveKeys(model, a, deps).value, ResolveKeys(model, a + b, deps).value;
      RelativePath.GetRelativePathBetween(fromPath, toPath, mode) ==
        RelativePath.Render(Components(Below(n, b, deps)), EndsWith(toPath, '/'))
  {
    var w := WalkFrom(model, a);
    var n := w.visited[|w.visited| - 1];
    var fromPath := Concat(w.visited, deps);
    assert fromPath == Concat(w.visited[..|w.visited| - 1], deps) + Segment(n.path, deps) + "/";
    ResolveDescend(model, a, b, deps);
    RelativePath.DescendFromDirectory(fromPath, Below(n, b, deps), mode);
  }
}
