/**
 * The trees the library's tests resolve paths in (a static file, a dynamic
 * file and an HLS video package) and the paths the tests expect of them.
 */
module Fixtures {
  import opened Wrappers
  import opened Strings
  import opened Model
  import opened Api
  import RelativePath
  import RelativePathExamples

  /** The decimal digits of a natural number. */
  function Decimal(n: nat): (s: string)
    ensures |s| >= 1
    ensures forall i :: 0 <= i < |s| ==> '0' <= s[i] <= '9'
  {
    var digit := ['0' + (n % 10) as char];
    if n < 10 then digit else Decimal(n / 10) + digit
  }

  /** A value interpolated into a template string (integral numbers only). */
  function Show(v: Value): string
  {
    match v
    case NumberValue(n) => if n < 0 then "-" + Decimal(-n) else Decimal(n)
    case StringValue(s) => s
  }

  /** `${deps[key]}`: the value of a parameter, or `undefined` when it is missing. */
  function Param(deps: Deps, key: string): string
  {
    if key in deps then Show(deps[key]) else "undefined"
  }

  /** `${deps[key] + 1}`: a number plus one, a string with `1` appended, `NaN` when missing. */
  function ParamPlusOne(deps: Deps, key: string): string
  {
    if key !in deps then "NaN"
    else match deps[key]
      case NumberValue(n) => Show(NumberValue(n + 1))
      case StringValue(s) => s + "1"
  }

  /** `file("file.ext")`. */
  const StaticFile: Node := File(Static("file.ext"))

  function FileName(deps: Deps): string { "file_" + Param(deps, "fileParam") + ".ext" }

  /** A file named after its `fileParam`. */
  const DynamicFile: Node := File(Dynamic({"fileParam"}, FileName))

  function VideoDir(deps: Deps): string { "videos/" + Param(deps, "videoId") }
  function StreamDir(deps: Deps): string { "stream_" + Param(deps, "quality") }
  function SegmentFile(deps: Deps): string { "segment_" + ParamPlusOne(deps, "segmentIndex") + ".ts" }

  /** One quality of a video: its playlist and its numbered segments. */
  const VariantStream: Node := Dir(Dynamic({"quality"}, StreamDir), map[
    "playlist" := File(Static("playlist.m3u8")),
    "segment" := File(Dynamic({"segmentIndex"}, SegmentFile))])

  /** A video package: the master manifest and one variant stream. */
  const HlsPackage: Node := Dir(Dynamic({"videoId"}, VideoDir), map[
    "manifest" := File(Static("master.m3u8")),
    "variantStream" := VariantStream])

  // ---------------------------------------------------------------------
  // The fixtures are well-formed trees.

  /** A function that reads one parameter through `Param` or `ParamPlusOne` reads only that parameter. */
  lemma ParamReadsOnly(key: string)
    ensures forall d1: Deps, d2: Deps :: AgreeOn(d1, d2, {key}) ==>
      Param(d1, key) == Param(d2, key) && ParamPlusOne(d1, key) == ParamPlusOne(d2, key)
  {
    forall d1: Deps, d2: Deps | AgreeOn(d1, d2, {key})
      ensures Param(d1, key) == Param(d2, key) && ParamPlusOne(d1, key) == ParamPlusOne(d2, key)
    {
      assert key in {key};
    }
  }

  lemma FixturesValid()
    ensures ValidNode(StaticFile) && ValidNode(DynamicFile)
    ensures ValidNode(VariantStream) && ValidNode(HlsPackage)
  {
    ParamReadsOnly("fileParam");
    ParamReadsOnly("videoId");
    ParamReadsOnly("quality");
    ParamReadsOnly("segmentIndex");
    assert ValidNode(VariantStream.children["playlist"]);
    assert ValidNode(VariantStream.children["segment"]);
    assert ValidNode(VariantStream);
    assert ValidNode(HlsPackage.children["manifest"]);
  }

  // ---------------------------------------------------------------------
  // Resolved paths

  const VideoOne: Deps := map["videoId" := NumberValue(1)]
  const VideoOneQualityTwo: Deps := map["videoId" := NumberValue(1), "quality" := NumberValue(2)]

  /** The renderings of the fixture nodes under the tests' dependencies. */
  lemma Renderings()
    ensures RenderNode(HlsPackage, VideoOne) == "videos/1/"
    ensures RenderNode(HlsPackage, VideoOneQualityTwo) == "videos/1/"
    ensures RenderNode(VariantStream, VideoOneQualityTwo) == "stream_2/"
    ensures RenderNode(HlsPackage.children["manifest"], VideoOne) == "master.m3u8"
    ensures RenderNode(VariantStream.children["playlist"], VideoOneQualityTwo) == "playlist.m3u8"
  {
    assert Param(VideoOne, "videoId") == "1";
    assert Param(VideoOneQualityTwo, "videoId") == "1";
    assert Param(VideoOneQualityTwo, "quality") == "2";
  }

  /** The root of the package resolves to its directory, with a trailing `/`. */
  lemma PackageRoot()
    ensures Resolve(HlsPackage, "", VideoOne) == Success("videos/1/")
  {
    ResolveRoot(HlsPackage, VideoOne);
    Renderings();
  }

  /** A static file root resolves to its name, with or without dependencies. */
  lemma StaticFileRoot()
    ensures Resolve(StaticFile, "", NormaliseDeps(None)) == Success("file.ext")
    ensures Resolve(StaticFile, "", map[]) == Success("file.ext")
  {
    ResolveRoot(StaticFile, map[]);
    var d := NormaliseDeps(None);
    ResolveRoot(StaticFile, d);
    assert Segment(StaticFile.path, d) + "" == "file.ext";
  }

  /** A dynamic file root is rendered from its parameter. */
  lemma DynamicFileRoot()
    ensures Resolve(DynamicFile, "", map["fileParam" := StringValue("hello")]) == Success("file_hello.ext")
  {
    var d := map["fileParam" := StringValue("hello")];
    ResolveRoot(DynamicFile, d);
    assert Param(d, "fileParam") == "hello";
    assert Segment(DynamicFile.path, d) + "" == "file_hello.ext";
  }

  // Single steps of the resolutions below, each in a context of its own.

  lemma StreamRoot()
    ensures Resolve(VariantStream, "", VideoOneQualityTwo) == Success("stream_2/")
  {
    ResolveRoot(VariantStream, VideoOneQualityTwo);
    Renderings();
  }

  lemma ManifestLeaf()
    ensures Resolve(HlsPackage.children["manifest"], "", VideoOne) == Success("master.m3u8")
  {
    ResolveRoot(HlsPackage.children["manifest"], VideoOne);
    Renderings();
  }

  lemma PlaylistLeaf()
    ensures Resolve(VariantStream.children["playlist"], "", VideoOneQualityTwo) == Success("playlist.m3u8")
  {
    ResolveRoot(VariantStream.children["playlist"], VideoOneQualityTwo);
    Renderings();
  }

  lemma StreamStep()
    ensures Resolve(HlsPackage, "variantStream", VideoOneQualityTwo) ==
      Prepend("videos/1/", Resolve(VariantStream, "", VideoOneQualityTwo))
  {
    ResolveFirstKey(HlsPackage, "variantStream", "", VideoOneQualityTwo);
    Renderings();
  }

  lemma ManifestStep()
    ensures Resolve(HlsPackage, "manifest", VideoOne) ==
      Prepend("videos/1/", Resolve(HlsPackage.children["manifest"], "", VideoOne))
  {
    ResolveFirstKey(HlsPackage, "manifest", "", VideoOne);
    Renderings();
  }

  lemma PlaylistStep()
    ensures Resolve(VariantStream, "playlist", VideoOneQualityTwo) ==
      Prepend("stream_2/", Resolve(VariantStream.children["playlist"], "", VideoOneQualityTwo))
  {
    ResolveFirstKey(VariantStream, "playlist", "", VideoOneQualityTwo);
    Renderings();
  }

  lemma StreamPlaylistStep()
    ensures Resolve(HlsPackage, "variantStream.playlist", VideoOneQualityTwo) ==
      Prepend("videos/1/", Resolve(VariantStream, "playlist", VideoOneQualityTwo))
  {
    DottedKeypaths();
    ResolveFirstKey(HlsPackage, "variantStream", "playlist", VideoOneQualityTwo);
    Renderings();
  }

  /** A directory below the root ends in `/` after its own segment. */
  lemma VariantStreamPath()
    ensures Resolve(HlsPackage, "variantStream", VideoOneQualityTwo) == Success("videos/1/stream_2/")
  {
    StreamRoot();
    StreamStep();
    Glued();
  }

  /** The manifest is the file below the package directory. */
  lemma ManifestPath()
    ensures Resolve(HlsPackage, "manifest", VideoOne) == Success("videos/1/master.m3u8")
  {
    ManifestLeaf();
    ManifestStep();
    Glued();
  }

  /** A file two levels down. */
  lemma PlaylistPath()
    ensures Resolve(HlsPackage, "variantStream.playlist", VideoOneQualityTwo) == Success("videos/1/stream_2/playlist.m3u8")
  {
    PlaylistLeaf();
    PlaylistStep();
    StreamPlaylistStep();
    Glued();
  }

  /** A relative-path request that resolves both ends. */
  lemma RelativeCase(mode: RelativePath.Mode, model: Node, fromKeypath: string, fromDeps: Deps, fromPath: string,
                     toKeypath: string, toDeps: Deps, toPath: string, expected: string)
    requires Resolve(model, fromKeypath, fromDeps) == Success(fromPath)
    requires Resolve(model, toKeypath, toDeps) == Success(toPath)
    requires RelativePath.GetRelativePathBetween(fromPath, toPath, mode) == expected
    ensures Relative(mode, model, WithDeps(fromKeypath, Some(fromDeps)), WithDeps(toKeypath, Some(toDeps))) == Success(expected)
  {
    assert ResolveArg(model, WithDeps(fromKeypath, Some(fromDeps))) == Success(fromPath);
    assert ResolveArg(model, WithDeps(toKeypath, Some(toDeps))) == Success(toPath);
  }

  // ---------------------------------------------------------------------
  // Facts about the literals of the tests: how the key paths and paths are
  // glued together, written from their components, and the expected results
  // from their steps. Each is a lemma of its own, called just where it is
  // needed: the solver works a literal fact out far more cheaply alone than
  // beside the others.

  lemma DottedKeypaths()
    ensures "variantStream" + "." + "playlist" == "variantStream.playlist"
    ensures "manifest" + "." + "x" == "manifest.x"
  {
  }

  lemma Glued()
    ensures "videos/1/" + "stream_2/" == "videos/1/stream_2/"
    ensures "videos/1/" + "master.m3u8" == "videos/1/master.m3u8"
    ensures "stream_2/" + "playlist.m3u8" == "stream_2/playlist.m3u8"
    ensures "videos/1/" + "stream_2/playlist.m3u8" == "videos/1/stream_2/playlist.m3u8"
  {
  }

  lemma ManifestWritten()
    ensures RelativePathExamples.Written(["videos", "1", "master.m3u8"], false) == "videos/1/master.m3u8"
  {
  }

  lemma StreamPlaylistJoined()
    ensures Join(["stream_2", "playlist.m3u8"], "/") == "stream_2/playlist.m3u8"
  {
  }

  lemma PackageJoined()
    ensures Join(["videos", "1"], "/") == "videos/1"
  {
  }

  lemma PlaylistGlued()
    ensures "videos/1" + "/" + "stream_2/playlist.m3u8" == "videos/1/stream_2/playlist.m3u8"
  {
  }

  lemma UpToPlaylistGlued()
    ensures ".." + "/" + "stream_2/playlist.m3u8" == "../stream_2/playlist.m3u8"
  {
  }

  lemma CleanManifestParts()
    ensures Clean(["videos", "1", "master.m3u8"], '/')
  {
  }

  lemma CleanPlaylistParts()
    ensures Clean(["videos", "1", "stream_2", "playlist.m3u8"], '/')
  {
  }

  lemma CleanPackageParts()
    ensures Clean(["videos", "1"], '/')
  {
  }

  lemma PlaylistJoined()
    ensures Join(["videos", "1", "stream_2", "playlist.m3u8"], "/") == "videos/1/stream_2/playlist.m3u8"
  {
    JoinAppend(["videos", "1"], ["stream_2", "playlist.m3u8"], "/");
    assert ["videos", "1"] + ["stream_2", "playlist.m3u8"] == ["videos", "1", "stream_2", "playlist.m3u8"];
    PackageJoined();
    StreamPlaylistJoined();
    PlaylistGlued();
  }

  lemma PlaylistWritten()
    ensures RelativePathExamples.Written(["videos", "1", "stream_2", "playlist.m3u8"], false) == "videos/1/stream_2/playlist.m3u8"
  {
    PlaylistJoined();
  }

  lemma PackageWritten()
    ensures RelativePathExamples.Written(["videos", "1"], true) == "videos/1/"
  {
  }

  lemma UpToPlaylistRendered()
    ensures RelativePath.Render(["..", "stream_2", "playlist.m3u8"], false) == "../stream_2/playlist.m3u8"
  {
    JoinAppend([".."], ["stream_2", "playlist.m3u8"], "/");
    assert [".."] + ["stream_2", "playlist.m3u8"] == ["..", "stream_2", "playlist.m3u8"];
    assert Join([".."], "/") == "..";
    StreamPlaylistJoined();
    UpToPlaylistGlued();
  }

  lemma DownToPlaylistRendered()
    ensures RelativePath.Render(["stream_2", "playlist.m3u8"], false) == "stream_2/playlist.m3u8"
  {
    StreamPlaylistJoined();
    assert Join(["stream_2", "playlist.m3u8"], "/") + "" == Join(["stream_2", "playlist.m3u8"], "/");
  }

  lemma ManifestRendered()
    ensures RelativePath.Render(["master.m3u8"], false) == "master.m3u8"
  {
  }

  lemma StepsToPlaylistFs()
    ensures RelativePath.Steps(["videos", "1", "master.m3u8"], ["videos", "1", "stream_2", "playlist.m3u8"]) ==
      ["..", "stream_2", "playlist.m3u8"]
  {
  }

  lemma StepsToPlaylistUrl()
    ensures RelativePath.Steps(["videos", "1"], ["videos", "1", "stream_2", "playlist.m3u8"]) == ["stream_2", "playlist.m3u8"]
  {
  }

  lemma StepsToManifest()
    ensures RelativePath.Steps(["videos", "1"], ["videos", "1", "master.m3u8"]) == ["master.m3u8"]
  {
  }

  lemma ManifestToPlaylistFs()
    ensures RelativePath.GetRelativePathBetween("videos/1/master.m3u8", "videos/1/stream_2/playlist.m3u8", RelativePath.Fs) ==
      "../stream_2/playlist.m3u8"
  {
    ManifestWritten();
    PlaylistWritten();
    StepsToPlaylistFs();
    CleanManifestParts();
    CleanPlaylistParts();
    UpToPlaylistRendered();
    RelativePathExamples.Row("videos/1/master.m3u8", "videos/1/stream_2/playlist.m3u8", RelativePath.Fs,
      "../stream_2/playlist.m3u8", ["videos", "1", "master.m3u8"], false,
      ["videos", "1", "stream_2", "playlist.m3u8"], false, ["..", "stream_2", "playlist.m3u8"]);
  }

  lemma ManifestToPlaylistUrl()
    ensures RelativePath.GetRelativePathBetween("videos/1/master.m3u8", "videos/1/stream_2/playlist.m3u8", RelativePath.Url) ==
      "stream_2/playlist.m3u8"
  {
    ManifestWritten();
    PlaylistWritten();
    StepsToPlaylistUrl();
    CleanManifestParts();
    CleanPlaylistParts();
    DownToPlaylistRendered();
    RelativePathExamples.Row("videos/1/master.m3u8", "videos/1/stream_2/playlist.m3u8", RelativePath.Url,
      "stream_2/playlist.m3u8", ["videos", "1", "master.m3u8"], false,
      ["videos", "1", "stream_2", "playlist.m3u8"], false, ["stream_2", "playlist.m3u8"]);
  }

  lemma PackageToManifest(mode: RelativePath.Mode)
    ensures RelativePath.GetRelativePathBetween("videos/1/", "videos/1/master.m3u8", mode) == "master.m3u8"
  {
    PackageWritten();
    ManifestWritten();
    StepsToManifest();
    CleanPackageParts();
    CleanManifestParts();
    ManifestRendered();
    RelativePathExamples.Row("videos/1/", "videos/1/master.m3u8", mode,
      "master.m3u8", ["videos", "1"], true, ["videos", "1", "master.m3u8"], false, ["master.m3u8"]);
  }

  /** From the manifest to the variant playlist: up one level in file-system mode, alongside in URL mode. */
  lemma FileToFile(mode: RelativePath.Mode)
    ensures Relative(mode, HlsPackage, WithDeps("manifest", Some(VideoOne)),
      WithDeps("variantStream.playlist", Some(VideoOneQualityTwo))) ==
      Success(if mode == RelativePath.Fs then "../stream_2/playlist.m3u8" else "stream_2/playlist.m3u8")
  {
    ManifestPath();
    PlaylistPath();
    ManifestToPlaylistFs();
    ManifestToPlaylistUrl();
    RelativeCase(mode, HlsPackage, "manifest", VideoOne, "videos/1/master.m3u8",
      "variantStream.playlist", VideoOneQualityTwo, "videos/1/stream_2/playlist.m3u8",
      if mode == RelativePath.Fs then "../stream_2/playlist.m3u8" else "stream_2/playlist.m3u8");
  }

  /** From the package directory to the manifest, the same in both modes. */
  lemma DirToFile(mode: RelativePath.Mode)
    ensures Relative(mode, HlsPackage, WithDeps("", Some(VideoOne)), WithDeps("manifest", Some(VideoOne))) ==
      Success("master.m3u8")
  {
    PackageRoot();
    ManifestPath();
    PackageToManifest(mode);
    RelativeCase(mode, HlsPackage, "", VideoOne, "videos/1/", "manifest", VideoOne, "videos/1/master.m3u8", "master.m3u8");
  }

  /** Descending through a file fails. */
  lemma ThroughFile()
    ensures Resolve(HlsPackage, "manifest.x", VideoOne) == Failure(NotTraversable)
  {
    DottedKeypaths();
    ResolveFirstKey(HlsPackage, "manifest", "x", VideoOne);
    ResolveFirstKey(HlsPackage.children["manifest"], "x", "", VideoOne);
  }

  /** A key the directory lacks fails with that key. */
  lemma MissingKey()
    ensures Resolve(HlsPackage, "missing", VideoOne) == Failure(KeyNotFound("missing"))
  {
    ResolveFirstKey(HlsPackage, "missing", "", VideoOne);
  }
}
