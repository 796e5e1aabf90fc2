/**
 * The relative path calculator: given two `/`-separated paths and a mode,
 * the path that leads from the first to the second. A trailing `/` marks a
 * directory. In `Fs` mode `fromPath` is always a directory; in `Url` mode a
 * `fromPath` without a trailing `/` names a document whose directory is the
 * base, as when a browser resolves a relative link.
 */
module RelativePath {
  import opened Strings
  import Seqs

  datatype Mode = Fs | Url

  /**
   * The base `fromPath` is measured from: unchanged in `Fs` mode or when it
   * ends in `/`; otherwise everything from its last `/` on is dropped, and a
   * path without `/` becomes `""`.
   */
  function NormaliseFrom(fromPath: string, mode: Mode): (base: string)
    ensures mode == Fs || EndsWith(fromPath, '/') ==> base == fromPath
    ensures mode == Url && !EndsWith(fromPath, '/') && '/' !in fromPath ==> base == ""
    ensures mode == Url && !EndsWith(fromPath, '/') && '/' in fromPath ==>
      |base| < |fromPath| && base == fromPath[..|base|] &&
      fromPath[|base|] == '/' && '/' !in fromPath[|base| + 1..]
  {
    if mode == Fs || EndsWith(fromPath, '/') then
      fromPath
    else
      var lastSlashIndex := LastIndexOf(fromPath, '/');
      if lastSlashIndex == -1 then "" else fromPath[..lastSlashIndex]
  }

  /**
   * `fromParts.findIndex((x, i) => x !== toParts[i])` searched from index `j`:
   * the first index at which `fromParts` disagrees with `toParts` or runs past
   * its end, or -1 when there is none.
   */
  function FindUncommon(fromParts: seq<string>, toParts: seq<string>, j: nat): (i: int)
    requires j <= |fromParts| && j <= |toParts|
    ensures i == -1 || j <= i < |fromParts|
    ensures i != -1 ==> i >= |toParts| || fromParts[i] != toParts[i]
    ensures i <= |toParts|
    ensures i == -1 ==> |fromParts| <= |toParts|
    ensures forall m :: j <= m < (if i == -1 then |fromParts| else i) ==>
      m < |toParts| && fromParts[m] == toParts[m]
    decreases |fromParts| - j
  {
    if j == |fromParts| then -1
    else if j >= |toParts| || fromParts[j] != toParts[j] then j
    else FindUncommon(fromParts, toParts, j + 1)
  }

  /**
   * The length of the longest common prefix of the two component lists (the
   * source's `firstCommonPartIndex`).
   */
  function CommonIndex(fromParts: seq<string>, toParts: seq<string>): (k: nat)
    ensures k <= |fromParts| && k <= |toParts|
    ensures fromParts[..k] == toParts[..k]
    ensures k < |fromParts| && k < |toParts| ==> fromParts[k] != toParts[k]
  {
    var firstUncommonPartIndex := FindUncommon(fromParts, toParts, 0);
    if firstUncommonPartIndex == -1 then |fromParts| else firstUncommonPartIndex
  }

  /** `getRelativePathBetween(fromPath, toPath, mode)`, step by step as the source computes it. */
  function GetRelativePathBetween(fromPath: string, toPath: string, mode: Mode): (r: string)
    ensures r != ""
  {
    var normalisedFromPath := NormaliseFrom(fromPath, mode);
    var fromParts := Components(normalisedFromPath);
    var toParts := Components(toPath);
    var firstCommonPartIndex := CommonIndex(fromParts, toParts);
    var pathBetweenFromAndCommon := Join(Repeat("..", |fromParts| - firstCommonPartIndex), "/");
    var pathBetweenCommonAndTo := Join(toParts[firstCommonPartIndex..], "/");
    var combinedPaths := Join(DropEmpty([pathBetweenFromAndCommon, pathBetweenCommonAndTo]), "/");
    var isToDir := EndsWith(toPath, '/');
    Finish(combinedPaths, isToDir)
  }

  /** The source's final conditional: `.` stands for an empty path, and a directory target gets a trailing `/`. */
  function Finish(combinedPaths: string, isToDir: bool): (r: string)
    ensures r != ""
  {
    if combinedPaths != "" then
      (if isToDir then combinedPaths + "/" else combinedPaths)
    else
      (if isToDir then "./" else ".")
  }

  // ---------------------------------------------------------------------
  // The specification: which steps the result takes, and how it is written

  /** The steps from `fromParts` to `toParts`: one `..` per uncommon `from` component, then the uncommon `to` components. */
  function Steps(fromParts: seq<string>, toParts: seq<string>): seq<string>
  {
    var k := CommonIndex(fromParts, toParts);
    Repeat("..", |fromParts| - k) + toParts[k..]
  }

  /** How a list of steps is written: joined with `/`, `.` for no steps, and a trailing `/` for a directory target. */
  function Render(steps: seq<string>, isDir: bool): string
  {
    if steps == [] then (if isDir then "./" else ".")
    else Join(steps, "/") + (if isDir then "/" else "")
  }

  /** The steps between two paths, as the calculator sees them. */
  function PathSteps(fromPath: string, toPath: string, mode: Mode): seq<string>
  {
    Steps(Components(NormaliseFrom(fromPath, mode)), Components(toPath))
  }

  /** Resolving one relative step against a directory: `..` goes up, `.` stays, a name goes down. */
  function Step(dir: seq<string>, step: string): seq<string>
  {
    if step == ".." then (if dir == [] then [] else dir[..|dir| - 1])
    else if step == "." then dir
    else dir + [step]
  }

  /** Resolving a relative path, given as its components, against a directory. */
  function Resolve(dir: seq<string>, steps: seq<string>): seq<string>
    decreases |steps|
  {
    if steps == [] then dir else Resolve(Step(dir, steps[0]), steps[1..])
  }

  /** A component list in which `.` and `..` do not occur, so resolving it only descends. */
  predicate Plain(parts: seq<string>) {
    forall i :: 0 <= i < |parts| ==> parts[i] != "." && parts[i] != ".."
  }

  // ---------------------------------------------------------------------
  // Lemmas about the steps

  /** The steps are clean path components: non-empty and without `/`. */
  lemma StepsClean(fromParts: seq<string>, toParts: seq<string>)
    requires Clean(toParts, '/')
    ensures Clean(Steps(fromParts, toParts), '/')
  {
    var k := CommonIndex(fromParts, toParts);
    var s := Steps(fromParts, toParts);
    forall i | 0 <= i < |s| ensures s[i] != "" && '/' !in s[i] {
      if i >= |fromParts| - k {
        assert s[i] == toParts[k + i - (|fromParts| - k)];
      }
    }
  }

  /** There are no steps exactly when the two component lists are equal. */
  lemma StepsEmpty(fromParts: seq<string>, toParts: seq<string>)
    ensures Steps(fromParts, toParts) == [] <==> fromParts == toParts
  {
    var k := CommonIndex(fromParts, toParts);
    if fromParts == toParts {
      assert k == |fromParts|;
    }
  }

  /** Joining the two halves of the result, after dropping an empty half, writes out all their parts. */
  lemma FinishHalves(ups: seq<string>, downs: seq<string>, isDir: bool)
    requires forall i :: 0 <= i < |ups| ==> ups[i] != ""
    requires forall i :: 0 <= i < |downs| ==> downs[i] != ""
    ensures Finish(Join(DropEmpty([Join(ups, "/"), Join(downs, "/")]), "/"), isDir) == Render(ups + downs, isDir)
  {
    var up, down := Join(ups, "/"), Join(downs, "/");
    JoinEnd(ups, "/");
    JoinEnd(downs, "/");
    JoinAppend(ups, downs, "/");
    assert [up, down][1..] == [down];
    assert DropEmpty([down]) == if down == "" then [] else [down];
    assert Join(DropEmpty([up, down]), "/") == Join(ups + downs, "/");
    JoinEnd(ups + downs, "/");
  }

  /** A suffix of a list of non-empty strings holds only non-empty strings. */
  lemma NonEmptySuffix(parts: seq<string>, k: nat)
    requires k <= |parts|
    requires forall i :: 0 <= i < |parts| ==> parts[i] != ""
    ensures forall i :: 0 <= i < |parts[k..]| ==> parts[k..][i] != ""
  {
    forall i | 0 <= i < |parts[k..]| ensures parts[k..][i] != "" {
      assert parts[k..][i] == parts[k + i];
    }
  }

  /** The steps between two component lists: `..` for each uncommon `from` component, then the uncommon `to` components. */
  lemma StepsHalves(fromParts: seq<string>, toParts: seq<string>, k: nat)
    requires k == CommonIndex(fromParts, toParts)
    ensures k <= |fromParts| && k <= |toParts|
    ensures Steps(fromParts, toParts) == Repeat("..", |fromParts| - k) + toParts[k..]
  {
  }

  /** The result in terms of the two component lists and their common-prefix index. */
  lemma Assembly(fromPath: string, toPath: string, mode: Mode, fromParts: seq<string>, toParts: seq<string>)
    requires fromParts == Components(NormaliseFrom(fromPath, mode)) && toParts == Components(toPath)
    ensures
      var k := CommonIndex(fromParts, toParts);
      GetRelativePathBetween(fromPath, toPath, mode) ==
        Finish(Join(DropEmpty([Join(Repeat("..", |fromParts| - k), "/"), Join(toParts[k..], "/")]), "/"), EndsWith(toPath, '/'))
  {
  }

  /** The source's assembly of the result writes out exactly the steps. */
  lemma ResultIsRenderedSteps(fromPath: string, toPath: string, mode: Mode)
    ensures GetRelativePathBetween(fromPath, toPath, mode) ==
      Render(PathSteps(fromPath, toPath, mode), EndsWith(toPath, '/'))
  {
    var fromParts := Components(NormaliseFrom(fromPath, mode));
    var toParts := Components(toPath);
    var k := CommonIndex(fromParts, toParts);
    Assembly(fromPath, toPath, mode, fromParts, toParts);
    StepsHalves(fromParts, toParts, k);
    NonEmptySuffix(toParts, k);
    FinishHalves(Repeat("..", |fromParts| - k), toParts[k..], EndsWith(toPath, '/'));
  }

  /** The result ends in `/` exactly when `toPath` does. */
  lemma TrailingSlashIffToDir(fromPath: string, toPath: string, mode: Mode)
    ensures EndsWith(GetRelativePathBetween(fromPath, toPath, mode), '/') <==> EndsWith(toPath, '/')
  {
    var steps := PathSteps(fromPath, toPath, mode);
    ResultIsRenderedSteps(fromPath, toPath, mode);
    StepsClean(Components(NormaliseFrom(fromPath, mode)), Components(toPath));
    JoinEnd(steps, "/");
    if steps != [] && !EndsWith(toPath, '/') {
      var last := steps[|steps| - 1];
      assert last[|last| - 1] != '/' by {
        assert last[|last| - 1] in last;
      }
    }
  }

  /**
   * Splitting the result on `/` gives exactly its steps (`.` when there are
   * none) and one empty piece after the trailing `/` of a directory: no
   * empty component from a leading, trailing or doubled slash of the inputs
   * survives.
   */
  lemma ResultPieces(fromPath: string, toPath: string, mode: Mode)
    ensures
      var steps := PathSteps(fromPath, toPath, mode);
      Split(GetRelativePathBetween(fromPath, toPath, mode), '/') ==
        (if steps == [] then ["."] else steps) + (if EndsWith(toPath, '/') then [""] else [])
  {
    var steps := PathSteps(fromPath, toPath, mode);
    var written := if steps == [] then ["."] else steps;
    ResultIsRenderedSteps(fromPath, toPath, mode);
    StepsClean(Components(NormaliseFrom(fromPath, mode)), Components(toPath));
    assert Render(steps, EndsWith(toPath, '/')) ==
      Join(written, "/") + (if EndsWith(toPath, '/') then "/" else "");
    assert Clean(written, '/');
    SplitJoin(written, '/');
    var r := GetRelativePathBetween(fromPath, toPath, mode);
    if EndsWith(toPath, '/') {
      assert r == Join(written, "/") + ['/'] + "";
      SplitAround(Join(written, "/"), "", '/');
      assert Split("", '/') == [""];
    } else {
      assert r == Join(written, "/");
    }
  }

  /** The components of the result are its steps, or the single `.` when there are none. */
  lemma ResultComponents(fromPath: string, toPath: string, mode: Mode)
    ensures
      var steps := PathSteps(fromPath, toPath, mode);
      Components(GetRelativePathBetween(fromPath, toPath, mode)) == if steps == [] then ["."] else steps
  {
    var steps := PathSteps(fromPath, toPath, mode);
    var written := if steps == [] then ["."] else steps;
    var r := GetRelativePathBetween(fromPath, toPath, mode);
    ResultPieces(fromPath, toPath, mode);
    StepsClean(Components(NormaliseFrom(fromPath, mode)), Components(toPath));
    assert Clean(written, '/');
    DropEmptyNonEmpty(written);
    if EndsWith(toPath, '/') {
      assert Split(r, '/') == written + [""];
      DropEmptyAppend(written, [""]);
      assert DropEmpty([""]) == [];
      assert Components(r) == DropEmpty(written + [""]);
    } else {
      assert Split(r, '/') == written;
    }
  }

  /**
   * In `Url` mode a `fromPath` without a trailing `/` is measured from its
   * directory: the base keeps every component but the last.
   */
  lemma UrlBaseDropsLastComponent(fromPath: string)
    requires !EndsWith(fromPath, '/')
    ensures
      var parts := Components(fromPath);
      Components(NormaliseFrom(fromPath, Url)) == if parts == [] then [] else parts[..|parts| - 1]
  {
    var base := NormaliseFrom(fromPath, Url);
    if '/' !in fromPath {
      if fromPath != "" {
        ComponentsOfName(fromPath);
      }
    } else {
      var name := fromPath[|base| + 1..];
      assert fromPath == base + "/" + name;
      ComponentsAround(base, name);
      assert name != "" by {
        assert fromPath[|fromPath| - 1] != '/';
      }
      ComponentsOfName(name);
    }
  }

  // ---------------------------------------------------------------------
  // Lemmas about resolving

  lemma {:induction false} ResolveAppend(dir: seq<string>, a: seq<string>, b: seq<string>)
    ensures Resolve(dir, a + b) == Resolve(Resolve(dir, a), b)
    decreases |a|
  {
    if a == [] {
      assert a + b == b;
    } else {
      assert (a + b)[1..] == a[1..] + b;
      ResolveAppend(Step(dir, a[0]), a[1..], b);
    }
  }

  /** Each `..` leaves one directory. */
  lemma {:induction false} ResolveUps(dir: seq<string>, n: nat)
    requires n <= |dir|
    ensures Resolve(dir, Repeat("..", n)) == dir[..|dir| - n]
  {
    if n > 0 {
      assert Repeat("..", n)[1..] == Repeat("..", n - 1);
      ResolveUps(dir[..|dir| - 1], n - 1);
      assert dir[..|dir| - 1][..|dir| - 1 - (n - 1)] == dir[..|dir| - n];
    }
  }

  /** Plain names descend one directory each. */
  lemma {:induction false} ResolveDowns(dir: seq<string>, names: seq<string>)
    requires Plain(names)
    ensures Resolve(dir, names) == dir + names
    decreases |names|
  {
    if names != [] {
      ResolveDowns(dir + [names[0]], names[1..]);
      assert dir + [names[0]] + names[1..] == dir + names;
    }
  }

  /** A suffix of a plain component list is plain. */
  lemma PlainSuffix(parts: seq<string>, k: nat)
    requires k <= |parts|
    requires Plain(parts)
    ensures Plain(parts[k..])
  {
    forall i | 0 <= i < |parts[k..]| ensures parts[k..][i] != "." && parts[k..][i] != ".." {
      assert parts[k..][i] == parts[k + i];
    }
  }

  /** Resolving the steps against `fromParts` reaches `toParts`. */
  lemma StepsReachTarget(fromParts: seq<string>, toParts: seq<string>)
    requires Plain(toParts)
    ensures Resolve(fromParts, Steps(fromParts, toParts)) == toParts
  {
    var k := CommonIndex(fromParts, toParts);
    ResolveAppend(fromParts, Repeat("..", |fromParts| - k), toParts[k..]);
    ResolveUps(fromParts, |fromParts| - k);
    PlainSuffix(toParts, k);
    ResolveDowns(toParts[..k], toParts[k..]);
    Seqs.TakeDrop(toParts, k);
  }

  /**
   * The round trip: resolving the result against the directory it is
   * measured from (`fromPath` itself in `Fs` mode, its directory in `Url`
   * mode) reaches `toPath`, provided `toPath` has no `.` or `..` of its own
   * for the comparison to be exact.
   */
  lemma RoundTrip(fromPath: string, toPath: string, mode: Mode)
    requires Plain(Components(toPath))
    ensures Resolve(Components(NormaliseFrom(fromPath, mode)),
                    Components(GetRelativePathBetween(fromPath, toPath, mode))) == Components(toPath)
  {
    var fromParts := Components(NormaliseFrom(fromPath, mode));
    var toParts := Components(toPath);
    var steps := Steps(fromParts, toParts);
    ResultComponents(fromPath, toPath, mode);
    if steps == [] {
      StepsEmpty(fromParts, toParts);
      assert Resolve(fromParts, ["."]) == Resolve(fromParts, []) by {
        assert ["."][1..] == [];
      }
    } else {
      StepsReachTarget(fromParts, toParts);
    }
  }

  /** A path relative to itself is `.`, or `./` for a directory. */
  lemma RelativeToSelf(p: string)
    ensures GetRelativePathBetween(p, p, Fs) == if EndsWith(p, '/') then "./" else "."
  {
    ResultIsRenderedSteps(p, p, Fs);
    StepsEmpty(Components(p), Components(p));
  }

  /** The components of a path below a directory are the directory's components followed by the rest. */
  lemma ComponentsBelow(dir: string, below: string)
    requires EndsWith(dir, '/')
    ensures Components(dir + below) == Components(dir) + Components(below)
  {
    var d := dir[..|dir| - 1];
    assert dir == d + "/" + "";
    assert dir + below == d + "/" + below;
    ComponentsAround(d, "");
    ComponentsAround(d, below);
    assert Components("") == [] by {
      assert Split("", '/') == [""];
    }
  }

  /** From a component list to one that extends it, the steps are the extra components. */
  lemma StepsDown(fromParts: seq<string>, extra: seq<string>)
    ensures Steps(fromParts, fromParts + extra) == extra
  {
    var toParts := fromParts + extra;
    var k := CommonIndex(fromParts, toParts);
    assert toParts[..|fromParts|] == fromParts;
    assert k == |fromParts|;
    assert toParts[k..] == extra;
  }

  /**
   * In either mode, from a directory to a path below it: the result is the
   * components below the directory, with no `..`.
   */
  lemma DescendFromDirectory(dir: string, below: string, mode: Mode)
    requires EndsWith(dir, '/')
    ensures GetRelativePathBetween(dir, dir + below, mode) == Render(Components(below), EndsWith(dir + below, '/'))
  {
    var fromParts := Components(dir);
    var toParts := Components(dir + below);
    ComponentsBelow(dir, below);
    StepsDown(fromParts, Components(below));
    assert NormaliseFrom(dir, mode) == dir;
    ResultIsRenderedSteps(dir, dir + below, mode);
  }
}
