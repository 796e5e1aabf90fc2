/** The calculator's behaviour on the cases its own test table lists. */
module RelativePathExamples {
  import opened Strings
  import opened RelativePath

  /** A path written as clean components joined by `/`, with a trailing `/` when it is a directory. */
  function Written(parts: seq<string>, isDir: bool): string
  {
    Join(parts, "/") + (if isDir then "/" else "")
  }

  /** A written path has the components it was written from, and ends in `/` exactly when it is a directory. */
  lemma WrittenParts(parts: seq<string>, isDir: bool)
    requires Clean(parts, '/')
    ensures Components(Written(parts, isDir)) == parts
    ensures EndsWith(Written(parts, isDir), '/') <==> isDir
  {
    var joined := Join(parts, "/");
    assert Components(joined) == parts by {
      ComponentsJoin(parts);
    }
    if isDir {
      assert Written(parts, isDir) == joined + "/" + "";
      assert Components("") == [] by {
        assert Split("", '/') == [""];
      }
      ComponentsAround(joined, "");
    } else {
      assert Written(parts, isDir) == joined;
      assert !EndsWith(joined, '/') by {
        JoinEnd(parts, "/");
        if parts != [] {
          var last := parts[|parts| - 1];
          assert last[|last| - 1] in last;
        }
      }
    }
  }

  /** The result for two written paths, in terms of their components. */
  lemma WrittenCase(fromParts: seq<string>, fromDir: bool, toParts: seq<string>, toDir: bool, mode: Mode)
    requires Clean(fromParts, '/') && Clean(toParts, '/')
    ensures
      var base := if mode == Fs || fromDir || fromParts == [] then fromParts else fromParts[..|fromParts| - 1];
      GetRelativePathBetween(Written(fromParts, fromDir), Written(toParts, toDir), mode) ==
        Render(Steps(base, toParts), toDir)
  {
    var fromPath, toPath := Written(fromParts, fromDir), Written(toParts, toDir);
    WrittenParts(fromParts, fromDir);
    WrittenParts(toParts, toDir);
    if mode == Url && !fromDir {
      UrlBaseDropsLastComponent(fromPath);
    }
    ResultIsRenderedSteps(fromPath, toPath, mode);
  }

  /**
   * One row of the test table: `fromPath` and `toPath` written from their
   * components, the steps between them, and the expected result written
   * from the steps.
   */
  lemma Row(fromPath: string, toPath: string, mode: Mode, expected: string,
            fromParts: seq<string>, fromDir: bool, toParts: seq<string>, toDir: bool, steps: seq<string>)
    requires Clean(fromParts, '/') && Clean(toParts, '/')
    requires Written(fromParts, fromDir) == fromPath && Written(toParts, toDir) == toPath
    requires Steps(if mode == Fs || fromDir || fromParts == [] then fromParts else fromParts[..|fromParts| - 1], toParts) == steps
    requires Render(steps, toDir) == expected
    ensures GetRelativePathBetween(fromPath, toPath, mode) == expected
  {
    WrittenCase(fromParts, fromDir, toParts, toDir, mode);
  }

  // Filesystem mode cases

  lemma FsIdentical()
    ensures GetRelativePathBetween("a/b", "a/b", Fs) == "."
  {
    WrittenAB(); StepsABToAB(); RenderedHere(); CleanAB();
    Row("a/b", "a/b", Fs, ".", ["a", "b"], false, ["a", "b"], false, []);
  }

  lemma FsParent()
    ensures GetRelativePathBetween("a/b", "a/", Fs) == "../"
  {
    WrittenAB(); WrittenADir(); StepsABToA(); RenderedUpDir(); CleanAB(); CleanA();
    Row("a/b", "a/", Fs, "../", ["a", "b"], false, ["a"], true, [".."]);
  }

  lemma FsGreatGrandparent()
    ensures GetRelativePathBetween("a/b/c/d", "a/", Fs) == "../../../"
  {
    WrittenABCD(); WrittenADir(); StepsABCDToA(); RenderedUp3Dir(); CleanABCD(); CleanA();
    Row("a/b/c/d", "a/", Fs, "../../../", ["a", "b", "c", "d"], false, ["a"], true, ["..", "..", ".."]);
  }

  lemma FsSibling()
    ensures GetRelativePathBetween("a/b", "a/c", Fs) == "../c"
  {
    WrittenAB(); WrittenAC(); StepsABToAC(); RenderedUpC(); CleanAB(); CleanAC();
    Row("a/b", "a/c", Fs, "../c", ["a", "b"], false, ["a", "c"], false, ["..", "c"]);
  }

  lemma FsSiblingsChild()
    ensures GetRelativePathBetween("a/b", "a/c/d", Fs) == "../c/d"
  {
    WrittenAB(); WrittenACD(); StepsABToACD(); RenderedUpCD(); CleanAB(); CleanACD();
    Row("a/b", "a/c/d", Fs, "../c/d", ["a", "b"], false, ["a", "c", "d"], false, ["..", "c", "d"]);
  }

  lemma FsChild()
    ensures GetRelativePathBetween("a", "a/b", Fs) == "b"
  {
    WrittenA(); WrittenAB(); StepsAToAB(); RenderedB(); CleanA(); CleanAB();
    Row("a", "a/b", Fs, "b", ["a"], false, ["a", "b"], false, ["b"]);
  }

  lemma FsGreatGrandchild()
    ensures GetRelativePathBetween("a", "a/b/c/d", Fs) == "b/c/d"
  {
    WrittenA(); WrittenABCD(); StepsAToABCD(); RenderedBCD(); CleanA(); CleanABCD();
    Row("a", "a/b/c/d", Fs, "b/c/d", ["a"], false, ["a", "b", "c", "d"], false, ["b", "c", "d"]);
  }

  lemma FsCousin()
    ensures GetRelativePathBetween("a/b/c", "a/d/e", Fs) == "../../d/e"
  {
    WrittenABC(); WrittenADE(); StepsABCToADE(); RenderedUp2DE(); CleanABC(); CleanADE();
    Row("a/b/c", "a/d/e", Fs, "../../d/e", ["a", "b", "c"], false, ["a", "d", "e"], false, ["..", "..", "d", "e"]);
  }

  lemma FsStranger()
    ensures GetRelativePathBetween("a/b/c", "x/y/z", Fs) == "../../../x/y/z"
  {
    WrittenABC(); WrittenXYZ(); StepsABCToXYZ(); RenderedUp3XYZ(); CleanABC(); CleanXYZ();
    Row("a/b/c", "x/y/z", Fs, "../../../x/y/z", ["a", "b", "c"], false, ["x", "y", "z"], false, ["..", "..", "..", "x", "y", "z"]);
  }

  // URL mode cases

  lemma UrlEmpty()
    ensures GetRelativePathBetween("", "", Url) == "."
  {
    WrittenRoot(); StepsRootToRoot(); RenderedHere(); 
    Row("", "", Url, ".", [], false, [], false, []);
  }

  lemma UrlIdentical()
    ensures GetRelativePathBetween("a/b", "a/b", Url) == "b"
  {
    WrittenAB(); StepsAToAB(); RenderedB(); CleanAB();
    Row("a/b", "a/b", Url, "b", ["a", "b"], false, ["a", "b"], false, ["b"]);
  }

  lemma UrlIdenticalFromDir()
    ensures GetRelativePathBetween("a/b/", "a/b/", Url) == "./"
  {
    WrittenABDir(); StepsABToAB(); RenderedHereDir(); CleanAB();
    Row("a/b/", "a/b/", Url, "./", ["a", "b"], true, ["a", "b"], true, []);
  }

  lemma UrlParent()
    ensures GetRelativePathBetween("a/b", "a/", Url) == "./"
  {
    WrittenAB(); WrittenADir(); StepsAToA(); RenderedHereDir(); CleanAB(); CleanA();
    Row("a/b", "a/", Url, "./", ["a", "b"], false, ["a"], true, []);
  }

  lemma UrlParentFromDir()
    ensures GetRelativePathBetween("a/b/", "a/", Url) == "../"
  {
    WrittenABDir(); WrittenADir(); StepsABToA(); RenderedUpDir(); CleanAB(); CleanA();
    Row("a/b/", "a/", Url, "../", ["a", "b"], true, ["a"], true, [".."]);
  }

  lemma UrlGreatGrandparent()
    ensures GetRelativePathBetween("a/b/c/d", "a/", Url) == "../../"
  {
    WrittenABCD(); WrittenADir(); StepsABCToA(); RenderedUp2Dir(); CleanABCD(); CleanA();
    Row("a/b/c/d", "a/", Url, "../../", ["a", "b", "c", "d"], false, ["a"], true, ["..", ".."]);
  }

  lemma UrlGreatGrandparentFromDir()
    ensures GetRelativePathBetween("a/b/c/d/", "a/", Url) == "../../../"
  {
    WrittenABCDDir(); WrittenADir(); StepsABCDToA(); RenderedUp3Dir(); CleanABCD(); CleanA();
    Row("a/b/c/d/", "a/", Url, "../../../", ["a", "b", "c", "d"], true, ["a"], true, ["..", "..", ".."]);
  }

  lemma UrlSibling()
    ensures GetRelativePathBetween("a/b", "a/c", Url) == "c"
  {
    WrittenAB(); WrittenAC(); StepsAToAC(); RenderedC(); CleanAB(); CleanAC();
    Row("a/b", "a/c", Url, "c", ["a", "b"], false, ["a", "c"], false, ["c"]);
  }

  lemma UrlSiblingFromDir()
    ensures GetRelativePathBetween("a/b/", "a/c", Url) == "../c"
  {
    WrittenABDir(); WrittenAC(); StepsABToAC(); RenderedUpC(); CleanAB(); CleanAC();
    Row("a/b/", "a/c", Url, "../c", ["a", "b"], true, ["a", "c"], false, ["..", "c"]);
  }

  lemma UrlSiblingsChild()
    ensures GetRelativePathBetween("a/b", "a/c/d", Url) == "c/d"
  {
    WrittenAB(); WrittenACD(); StepsAToACD(); RenderedCD(); CleanAB(); CleanACD();
    Row("a/b", "a/c/d", Url, "c/d", ["a", "b"], false, ["a", "c", "d"], false, ["c", "d"]);
  }

  lemma UrlSiblingsChildFromDir()
    ensures GetRelativePathBetween("a/b/", "a/c/d", Url) == "../c/d"
  {
    WrittenABDir(); WrittenACD(); StepsABToACD(); RenderedUpCD(); CleanAB(); CleanACD();
    Row("a/b/", "a/c/d", Url, "../c/d", ["a", "b"], true, ["a", "c", "d"], false, ["..", "c", "d"]);
  }

  lemma UrlChild()
    ensures GetRelativePathBetween("a/b", "a/b/c", Url) == "b/c"
  {
    WrittenAB(); WrittenABC(); StepsAToABC(); RenderedBC(); CleanAB(); CleanABC();
    Row("a/b", "a/b/c", Url, "b/c", ["a", "b"], false, ["a", "b", "c"], false, ["b", "c"]);
  }

  lemma UrlChildFromDir()
    ensures GetRelativePathBetween("a/b/", "a/b/c", Url) == "c"
  {
    WrittenABDir(); WrittenABC(); StepsABToABC(); RenderedC(); CleanAB(); CleanABC();
    Row("a/b/", "a/b/c", Url, "c", ["a", "b"], true, ["a", "b", "c"], false, ["c"]);
  }

  lemma UrlGreatGrandchild()
    ensures GetRelativePathBetween("a", "a/b/c/d", Url) == "a/b/c/d"
  {
    WrittenA(); WrittenABCD(); StepsRootToABCD(); RenderedABCD(); CleanA(); CleanABCD();
    Row("a", "a/b/c/d", Url, "a/b/c/d", ["a"], false, ["a", "b", "c", "d"], false, ["a", "b", "c", "d"]);
  }

  lemma UrlGreatGrandchildFromDir()
    ensures GetRelativePathBetween("a/", "a/b/c/d", Url) == "b/c/d"
  {
    WrittenADir(); WrittenABCD(); StepsAToABCD(); RenderedBCD(); CleanA(); CleanABCD();
    Row("a/", "a/b/c/d", Url, "b/c/d", ["a"], true, ["a", "b", "c", "d"], false, ["b", "c", "d"]);
  }

  lemma UrlCousin()
    ensures GetRelativePathBetween("a/b/c", "a/d/e", Url) == "../d/e"
  {
    WrittenABC(); WrittenADE(); StepsABToADE(); RenderedUpDE(); CleanABC(); CleanADE();
    Row("a/b/c", "a/d/e", Url, "../d/e", ["a", "b", "c"], false, ["a", "d", "e"], false, ["..", "d", "e"]);
  }

  lemma UrlCousinFromDir()
    ensures GetRelativePathBetween("a/b/c/", "a/d/e", Url) == "../../d/e"
  {
    WrittenABCDir(); WrittenADE(); StepsABCToADE(); RenderedUp2DE(); CleanABC(); CleanADE();
    Row("a/b/c/", "a/d/e", Url, "../../d/e", ["a", "b", "c"], true, ["a", "d", "e"], false, ["..", "..", "d", "e"]);
  }

  lemma UrlStranger()
    ensures GetRelativePathBetween("a/b/c", "x/y/z", Url) == "../../x/y/z"
  {
    WrittenABC(); WrittenXYZ(); StepsABToXYZ(); RenderedUp2XYZ(); CleanABC(); CleanXYZ();
    Row("a/b/c", "x/y/z", Url, "../../x/y/z", ["a", "b", "c"], false, ["x", "y", "z"], false, ["..", "..", "x", "y", "z"]);
  }

  lemma UrlStrangerFromDir()
    ensures GetRelativePathBetween("a/b/c/", "x/y/z", Url) == "../../../x/y/z"
  {
    WrittenABCDir(); WrittenXYZ(); StepsABCToXYZ(); RenderedUp3XYZ(); CleanABC(); CleanXYZ();
    Row("a/b/c/", "x/y/z", Url, "../../../x/y/z", ["a", "b", "c"], true, ["x", "y", "z"], false, ["..", "..", "..", "x", "y", "z"]);
  }

  // ---------------------------------------------------------------------
  // Facts about the literals of the table: their components are clean, how
  // they are written, their steps and how those are rendered. Each is a
  // lemma of its own, called by the rows that need it: the solver works a
  // literal fact out far more cheaply alone than beside the others.

  lemma CleanA()
    ensures Clean(["a"], '/')
  {
  }

  lemma CleanAB()
    ensures Clean(["a", "b"], '/')
  {
  }

  lemma CleanABC()
    ensures Clean(["a", "b", "c"], '/')
  {
  }

  lemma CleanABCD()
    ensures Clean(["a", "b", "c", "d"], '/')
  {
  }

  lemma CleanAC()
    ensures Clean(["a", "c"], '/')
  {
  }

  lemma CleanACD()
    ensures Clean(["a", "c", "d"], '/')
  {
  }

  lemma CleanADE()
    ensures Clean(["a", "d", "e"], '/')
  {
  }

  lemma CleanXYZ()
    ensures Clean(["x", "y", "z"], '/')
  {
  }

  lemma WrittenA()
    ensures Written(["a"], false) == "a"
  {
  }

  lemma WrittenAB()
    ensures Written(["a", "b"], false) == "a/b"
  {
  }

  lemma WrittenABC()
    ensures Written(["a", "b", "c"], false) == "a/b/c"
  {
  }

  lemma WrittenABCD()
    ensures Written(["a", "b", "c", "d"], false) == "a/b/c/d"
  {
  }

  lemma WrittenABCDDir()
    ensures Written(["a", "b", "c", "d"], true) == "a/b/c/d/"
  {
  }

  lemma WrittenABCDir()
    ensures Written(["a", "b", "c"], true) == "a/b/c/"
  {
  }

  lemma WrittenABDir()
    ensures Written(["a", "b"], true) == "a/b/"
  {
  }

  lemma WrittenAC()
    ensures Written(["a", "c"], false) == "a/c"
  {
  }

  lemma WrittenACD()
    ensures Written(["a", "c", "d"], false) == "a/c/d"
  {
  }

  lemma WrittenADE()
    ensures Written(["a", "d", "e"], false) == "a/d/e"
  {
  }

  lemma WrittenADir()
    ensures Written(["a"], true) == "a/"
  {
  }

  lemma WrittenRoot()
    ensures Written([], false) == ""
  {
  }

  lemma WrittenXYZ()
    ensures Written(["x", "y", "z"], false) == "x/y/z"
  {
  }

  lemma StepsABCDToA()
    ensures Steps(["a", "b", "c", "d"], ["a"]) == ["..", "..", ".."]
  {
  }

  lemma StepsABCToA()
    ensures Steps(["a", "b", "c"], ["a"]) == ["..", ".."]
  {
  }

  lemma StepsABCToADE()
    ensures Steps(["a", "b", "c"], ["a", "d", "e"]) == ["..", "..", "d", "e"]
  {
  }

  lemma StepsABCToXYZ()
    ensures Steps(["a", "b", "c"], ["x", "y", "z"]) == ["..", "..", "..", "x", "y", "z"]
  {
  }

  lemma StepsABToA()
    ensures Steps(["a", "b"], ["a"]) == [".."]
  {
  }

  lemma StepsABToAB()
    ensures Steps(["a", "b"], ["a", "b"]) == []
  {
  }

  lemma StepsABToABC()
    ensures Steps(["a", "b"], ["a", "b", "c"]) == ["c"]
  {
  }

  lemma StepsABToAC()
    ensures Steps(["a", "b"], ["a", "c"]) == ["..", "c"]
  {
  }

  lemma StepsABToACD()
    ensures Steps(["a", "b"], ["a", "c", "d"]) == ["..", "c", "d"]
  {
  }

  lemma StepsABToADE()
    ensures Steps(["a", "b"], ["a", "d", "e"]) == ["..", "d", "e"]
  {
  }

  lemma StepsABToXYZ()
    ensures Steps(["a", "b"], ["x", "y", "z"]) == ["..", "..", "x", "y", "z"]
  {
  }

  lemma StepsAToA()
    ensures Steps(["a"], ["a"]) == []
  {
  }

  lemma StepsAToAB()
    ensures Steps(["a"], ["a", "b"]) == ["b"]
  {
  }

  lemma StepsAToABC()
    ensures Steps(["a"], ["a", "b", "c"]) == ["b", "c"]
  {
  }

  lemma StepsAToABCD()
    ensures Steps(["a"], ["a", "b", "c", "d"]) == ["b", "c", "d"]
  {
  }

  lemma StepsAToAC()
    ensures Steps(["a"], ["a", "c"]) == ["c"]
  {
  }

  lemma StepsAToACD()
    ensures Steps(["a"], ["a", "c", "d"]) == ["c", "d"]
  {
  }

  lemma StepsRootToABCD()
    ensures Steps([], ["a", "b", "c", "d"]) == ["a", "b", "c", "d"]
  {
  }

  lemma StepsRootToRoot()
    ensures Steps([], []) == []
  {
  }

  lemma RenderedABCD()
    ensures Render(["a", "b", "c", "d"], false) == "a/b/c/d"
  {
  }

  lemma RenderedB()
    ensures Render(["b"], false) == "b"
  {
  }

  lemma RenderedBC()
    ensures Render(["b", "c"], false) == "b/c"
  {
  }

  lemma RenderedBCD()
    ensures Render(["b", "c", "d"], false) == "b/c/d"
  {
  }

  lemma RenderedC()
    ensures Render(["c"], false) == "c"
  {
  }

  lemma RenderedCD()
    ensures Render(["c", "d"], false) == "c/d"
  {
  }

  lemma RenderedHere()
    ensures Render([], false) == "."
  {
  }

  lemma RenderedHereDir()
    ensures Render([], true) == "./"
  {
  }

  lemma RenderedUp2DE()
    ensures Render(["..", "..", "d", "e"], false) == "../../d/e"
  {
  }

  lemma RenderedUp2Dir()
    ensures Render(["..", ".."], true) == "../../"
  {
  }

  lemma RenderedUp2XYZ()
    ensures Render(["..", "..", "x", "y", "z"], false) == "../../x/y/z"
  {
  }

  lemma RenderedUp3Dir()
    ensures Render(["..", "..", ".."], true) == "../../../"
  {
  }

  lemma RenderedUp3XYZ()
    ensures Render(["..", "..", "..", "x", "y", "z"], false) == "../../../x/y/z"
  {
  }

  lemma RenderedUpC()
    ensures Render(["..", "c"], false) == "../c"
  {
  }

  lemma RenderedUpCD()
    ensures Render(["..", "c", "d"], false) == "../c/d"
  {
  }

  lemma RenderedUpDE()
    ensures Render(["..", "d", "e"], false) == "../d/e"
  {
  }

  lemma RenderedUpDir()
    ensures Render([".."], true) == "../"
  {
  }
}
