# path-master, modelled in Dafny

path-master describes a directory layout as a tree of nodes. A node is a
file or a directory; it has a path segment, either a fixed name or a
function of the caller's dependencies, and a directory has named children.
Three pieces run at run time, and this project models all three:

- **the relative path calculator** (`RelativePath`): given two
  `/`-separated paths and a mode (`fs` or `url`), the relative path from
  the first to the second;
- **tree traversal and path resolution** (`Api`): walking a dot-separated
  key path from the root, joining the visited nodes' segments into a path
  (with `/` after each directory), and the relative path between two nodes;
- **the node model** (`Model`): the `file` and `dir` constructors, the
  file/directory tests, and the construction rules that the library states
  as types (non-empty names, dynamic names that declare parameters, children
  that are nodes under string keys).

Supporting modules: `Wrappers` (Option and Result), `Seqs` (sequence
identities), `Strings` (the string operations the calculator uses:
`split`, `join`, `filter(Boolean)`, `lastIndexOf`, `endsWith`), and two
modules of concrete cases: `RelativePathExamples` (the calculator's test
table) and `Fixtures` (the trees the resolution tests use and the
paths they expect).

How the pieces are specified:

- The calculator is a function written step by step as the source
  computes it. It is specified by the steps it takes, `Steps`: one `..` per
  uncommon `from` component, then the uncommon `to` components. It is also
  specified by how those are written, `Render`. The round trip resolves
  the result (`..` goes up, `.` stays, a name goes down) against the base
  directory's components and gets back `toPath`'s components. The base's
  components are taken as the calculator sees them: a `.` or `..` in the
  base counts as a folder name, and the empty piece of a doubled `/` is
  gone. So this is the property the tests check with `path.join` and
  `new URL` only for bases without `.`, `..` or `//` (see "Left out").
- `traverseToKeypath` is a method with the source's `for` loop. It returns
  the nodes its callback would see, in order, and the error that stopped
  it. The method is proved equal to the walk function `WalkFrom`.
- `getPath` is a method with the source's accumulating loop. It is proved
  equal to `Resolve`: the concatenated segments of the walk are returned,
  or the walk's error.
- The entry points `getRelativeFsPath` and `getRelativeUrlPath` are
  methods. They are proved equal to `Relative`, the composition of two
  resolutions with the calculator.

`file` and `dir` do no checks at run time: they wrap their arguments
in an object and never fail. The construction rules are TypeScript types,
checked only when a tree is written down. Here those rules are the ghost
predicates `ValidPath` and `ValidNode`, and the lemmas that need them
require them. `ValidPath` is stricter than the types (see "Left out").

## Model

| member | source | states |
|---|---|---|
| Strings.LastIndexOf | src/utils/relative-path.ts:14-20 | the index of the last occurrence of the character, or -1 exactly when it does not occur; nothing after it is that character |
| Strings.Split | src/utils/relative-path.ts:23-25 | splitting on a character gives at least one piece, no piece holds the character, and joining the pieces with it gives back the string |
| Strings.Join | src/utils/relative-path.ts:38-45 | `join(sep)`: no parts give `""`, one part gives itself, otherwise the parts with `sep` between neighbours; `Strings.SplitJoin` ties it back to `Split` |
| Strings.EndsWith | src/utils/relative-path.ts:10 | `endsWith(c)`: the string is non-empty and its last character is `c` |
| Strings.DropEmpty | src/utils/relative-path.ts:43-44 | `filter(Boolean)` gives no more strings than it was given, all non-empty, and as members exactly the non-empty strings it was given; order and repeats are fixed by `DropEmptyAppend` and `DropEmptyNonEmpty` |
| Strings.DropEmptyAppend | src/utils/relative-path.ts:43-44 | filtering a concatenation is concatenating the filtered halves, so the kept strings stay in order |
| Strings.DropEmptyNonEmpty | src/utils/relative-path.ts:43-44 | a list of non-empty strings passes through unchanged, repeats included |
| Strings.Repeat | src/utils/relative-path.ts:33-38 | `Array.from({length: n}, () => x)` has length `n` and every element is `x` |
| Strings.Components | src/utils/relative-path.ts:23-25 | the components of a path are non-empty and hold no `/` |
| RelativePath.NormaliseFrom | src/utils/relative-path.ts:9-21 | the base is `fromPath` itself in `fs` mode or after a trailing `/`; otherwise `""` when there is no `/`, else the prefix before the last `/`, after which no `/` follows |
| RelativePath.FindUncommon | src/utils/relative-path.ts:28 | the first index where `fromParts` disagrees with `toParts` or runs past it, -1 only when `fromParts` is a prefix of `toParts`; all earlier indices agree |
| RelativePath.CommonIndex | src/utils/relative-path.ts:28-30 | the common-prefix index is at most both lengths, the parts below it agree, and the parts at it differ when both exist |
| RelativePath.GetRelativePathBetween | src/utils/relative-path.ts:3-53 | the result is never empty |
| RelativePath.Finish | src/utils/relative-path.ts:47-52 | the final conditional never yields the empty string |
| RelativePath.StepsClean | src/utils/relative-path.ts:33-41 | every step is a non-empty component without `/` |
| RelativePath.StepsEmpty | src/utils/relative-path.ts:28-41 | there are no steps exactly when the two component lists are equal |
| RelativePath.FinishHalves | src/utils/relative-path.ts:43-52 | joining the `..` half and the descending half after dropping an empty half writes every step once, separated by `/` |
| RelativePath.ResultIsRenderedSteps | src/utils/relative-path.ts:3-53 | the result is the steps joined with `/`, `.` when there are none, with a trailing `/` exactly for a directory target |
| RelativePath.TrailingSlashIffToDir | src/utils/relative-path.ts:47-52 | the result ends in `/` if and only if `toPath` does |
| RelativePath.ResultPieces | src/utils/relative-path.ts:23-52 | splitting the result on `/` gives exactly the steps (or `.`) plus one empty piece after a trailing `/`: no empty component of the inputs survives |
| RelativePath.ResultComponents | src/utils/relative-path.ts:23-52 | the non-empty components of the result are exactly the steps, or `.` when there are none |
| RelativePath.UrlBaseDropsLastComponent | src/utils/relative-path.ts:9-21 | in `url` mode a `fromPath` without trailing `/` is measured from its directory: all its components but the last |
| RelativePath.StepsReachTarget | src/utils/relative-path.ts:28-41 | resolving the steps (`..` up, names down) against `fromParts`, taken as plain names, reaches `toParts` when `toParts` has no `.` or `..` |
| RelativePath.RoundTrip | src/utils/relative-path.test.ts:53-57 | resolving the result against the base directory's components gives the components of `toPath`; this is the tests' `path.join` and `new URL` check only for bases without `.`, `..` or `//` |
| RelativePath.RelativeToSelf | src/utils/relative-path.test.ts:10 | a path relative to itself in `fs` mode is `.`, or `./` for a directory |
| RelativePath.DescendFromDirectory | src/utils/relative-path.ts:28-45 | from a directory to a path below it, in either mode, the result is the components below it with no `..` |
| RelativePathExamples.WrittenParts | src/utils/relative-path.ts:23-25 | a path written from clean components splits back into them and ends in `/` exactly when written as a directory |
| RelativePathExamples.WrittenCase | src/utils/relative-path.ts:9-52 | for written paths the result is the rendered steps from the base (all `from` components, or all but the last in `url` mode without trailing `/`) |
| RelativePathExamples.Row | src/utils/relative-path.test.ts:20-24 | a table row holds when its paths, steps and expected result are written from the same components |
| RelativePathExamples.FsIdentical | src/utils/relative-path.test.ts:10 | the `fs` table entry on this line: exact result |
| RelativePathExamples.FsParent | src/utils/relative-path.test.ts:11 | the `fs` table entry on this line: exact result |
| RelativePathExamples.FsGreatGrandparent | src/utils/relative-path.test.ts:12 | the `fs` table entry on this line: exact result |
| RelativePathExamples.FsSibling | src/utils/relative-path.test.ts:13 | the `fs` table entry on this line: exact result |
| RelativePathExamples.FsSiblingsChild | src/utils/relative-path.test.ts:14 | the `fs` table entry on this line: exact result |
| RelativePathExamples.FsChild | src/utils/relative-path.test.ts:15 | the `fs` table entry on this line: exact result |
| RelativePathExamples.FsGreatGrandchild | src/utils/relative-path.test.ts:16 | the `fs` table entry on this line: exact result |
| RelativePathExamples.FsCousin | src/utils/relative-path.test.ts:17 | the `fs` table entry on this line: exact result |
| RelativePathExamples.FsStranger | src/utils/relative-path.test.ts:18 | the `fs` table entry on this line: exact result |
| RelativePathExamples.UrlEmpty | src/utils/relative-path.test.ts:32 | the `url` table entry on this line: exact result |
| RelativePathExamples.UrlIdentical | src/utils/relative-path.test.ts:33 | the `url` table entry on this line: exact result |
| RelativePathExamples.UrlIdenticalFromDir | src/utils/relative-path.test.ts:34 | the `url` table entry on this line: exact result |
| RelativePathExamples.UrlParent | src/utils/relative-path.test.ts:35 | the `url` table entry on this line: exact result |
| RelativePathExamples.UrlParentFromDir | src/utils/relative-path.test.ts:36 | the `url` table entry on this line: exact result |
| RelativePathExamples.UrlGreatGrandparent | src/utils/relative-path.test.ts:37 | the `url` table entry on this line: exact result |
| RelativePathExamples.UrlGreatGrandparentFromDir | src/utils/relative-path.test.ts:38 | the `url` table entry on this line: exact result |
| RelativePathExamples.UrlSibling | src/utils/relative-path.test.ts:39 | the `url` table entry on this line: exact result |
| RelativePathExamples.UrlSiblingFromDir | src/utils/relative-path.test.ts:40 | the `url` table entry on this line: exact result |
| RelativePathExamples.UrlSiblingsChild | src/utils/relative-path.test.ts:41 | the `url` table entry on this line: exact result |
| RelativePathExamples.UrlSiblingsChildFromDir | src/utils/relative-path.test.ts:42 | the `url` table entry on this line: exact result |
| RelativePathExamples.UrlChild | src/utils/relative-path.test.ts:43 | the `url` table entry on this line: exact result |
| RelativePathExamples.UrlChildFromDir | src/utils/relative-path.test.ts:44 | the `url` table entry on this line: exact result |
| RelativePathExamples.UrlGreatGrandchild | src/utils/relative-path.test.ts:45 | the `url` table entry on this line: exact result |
| RelativePathExamples.UrlGreatGrandchildFromDir | src/utils/relative-path.test.ts:46 | the `url` table entry on this line: exact result |
| RelativePathExamples.UrlCousin | src/utils/relative-path.test.ts:47 | the `url` table entry on this line: exact result |
| RelativePathExamples.UrlCousinFromDir | src/utils/relative-path.test.ts:48 | the `url` table entry on this line: exact result |
| RelativePathExamples.UrlStranger | src/utils/relative-path.test.ts:49 | the `url` table entry on this line: exact result |
| RelativePathExamples.UrlStrangerFromDir | src/utils/relative-path.test.ts:50 | the `url` table entry on this line: exact result |
| Model.MakeFile | src/model.ts:45-48 | `file(p)` is a file node, not a directory, with path `p` |
| Model.MakeDir | src/model.ts:50-54 | `dir(p, c)` is a directory node, not a file, with path `p` and children `c` unchanged |
| Model.GetNodeType | src/model.ts:62-63 | the type is `"file"` exactly when the node is a file node and `"dir"` exactly when it is a directory node |
| Model.IsFileNode | src/model.ts:56-57 | `isFileNode`: the node has no children |
| Model.IsDirNode | src/model.ts:59-60 | `isDirNode`: the node has children |
| Model.ValidPath | src/model.ts:26-33 | `PathArg`: a static name is non-empty; a function declares at least one parameter. It also demands that the function reads only those and never yields `""`, stricter than the type |
| Model.ValidNode | src/model.ts:26-43 | `PathArg` for every node of a tree; children are nodes under string keys by the map's type |
| Model.FileIsNotDir | src/model.ts:56-60 | every node is a file node exactly when it is not a directory node |
| Model.RejectedPaths | src/model.test-d.ts:7-20 | an empty name, a function that yields `""` and a function without parameters are rejected; a plain name is accepted |
| Api.ErrorMessage | src/api.ts:24-28 | the file error's fixed message, and for a missing key the message `Key <key> not found in children.` with the key verbatim in it |
| Api.ErrorMessageIdentifies | src/api.ts:24-28 | two errors with the same message are the same error, missing key included |
| Api.Keys | src/api.ts:18 | no keys exactly for `""`; otherwise the dot-free pieces, which joined with `.` give back the key path |
| Api.WalkFrom | src/api.ts:10-34 | a walk visits the start node first and at most one node per key; it ends without error exactly when it visited one node per key plus the root |
| Api.WalkFollowsKeys | src/api.ts:20-33 | each visited node but the last is a directory whose child under the next key is the next visited node; an error names the missing key of a directory last node, or says the last node is a file |
| Api.TraverseToKeypath | src/api.ts:10-34 | the loop hands the callback exactly the nodes of the walk along the keys, stops with the walk's error; an empty key path visits the root only; one visit per key plus the root exactly when it succeeds |
| Api.NormaliseDeps | src/api.ts:56 | an absent dependency argument becomes the empty map, a present one is passed on |
| Api.Segment | src/api.ts:60-61 | a static path is used as it is, a dynamic one is applied to the dependencies |
| Api.RenderNode | src/api.ts:63-68 | what one visit appends: the segment, then `/` for a directory |
| Api.Concat | src/api.ts:57-69 | the paths the callback accumulates over a list of visits, one visit's rendering after another |
| Api.GetPath | src/api.ts:48-72 | the accumulated path is the resolution of the key path under the normalised dependencies: the segments of the visited nodes, `/` after each directory, or the traversal's error |
| Api.NormaliseKeypathArg | src/api.ts:81-92 | a bare key path gets empty dependencies; a tuple passes its key path and dependencies on |
| Api.GetRelativePath | src/api.ts:112-122 | resolves both arguments after normalising them, fails with the first error, and otherwise gives the calculator's result for the two paths |
| Api.GetRelativeUrlPath | src/api.ts:134 | the relative path between two nodes in `url` mode |
| Api.GetRelativeFsPath | src/api.ts:146 | the relative path between two nodes in `fs` mode |
| Api.ConcatAppend | src/api.ts:59-69 | the path of a concatenated visit list is the concatenation of their paths |
| Api.ResolveRoot | src/api.ts:15-18 | the empty key path resolves to the root's own segment, with `/` for a directory |
| Api.ResolveFirstKey | src/api.ts:20-32 | a key path starting with a key fails on a file, fails naming the key when it is missing, and otherwise is the root's rendering followed by the resolution of the rest from the child |
| Api.WalkAppend | src/api.ts:20-33 | walking `a + b` is walking `a`, then walking `b` from where `a` ended |
| Api.WalkExtends | src/api.ts:20-33 | after a full walk along `a`, the walk along `a + b` continues with the walk along `b` from the node reached |
| Api.ResolveDescend | src/api.ts:59-69 | the path of a node below a resolved node is the resolved path followed by the segments below it (or an error) |
| Api.WalkValid | src/model.ts:36-43 | every node visited in a well-formed tree is well-formed |
| Api.ResolvedTrailingSlash | src/api.ts:63-68 | in a well-formed tree a resolved path ends in `/` exactly when the node is a directory, unless its own segment ends in `/` |
| Api.SegmentNonEmpty | src/model.ts:26-33 | a well-formed node's segment, static or computed, is never empty |
| Api.ConcatAgree | src/api.ts:60-61 | the path of visited nodes depends only on the parameters their segments declare |
| Api.DepsIrrelevant | src/api.ts:56-61 | two dependency maps that agree on the parameters of the visited nodes resolve a key path to the same result |
| Api.KeysJoin | src/api.ts:18 | key paths built by joining dot-free keys with `.` split back into those keys |
| Api.RelativeToDescendant | src/api.ts:112-122 | from a directory to a node below it the relative path is the components below it, in either mode |
| Fixtures.FixturesValid | src/__testing/fixtures.ts:4-25 | the test fixtures are well-formed trees |
| Fixtures.Renderings | src/__testing/fixtures.ts:10-25 | the segments of the fixture nodes under the tests' dependencies |
| Fixtures.PackageRoot | src/api.test.ts:13-19 | the package root resolves to `videos/1/` |
| Fixtures.StaticFileRoot | src/api.test.ts:21-28 | a static file root resolves to `file.ext` with no or empty dependencies |
| Fixtures.DynamicFileRoot | src/api.test.ts:30-33 | a dynamic file root resolves to `file_hello.ext` |
| Fixtures.VariantStreamPath | src/api.test.ts:36-40 | `variantStream` resolves to `videos/1/stream_2/` |
| Fixtures.ManifestPath | src/api.test.ts:49 | `manifest` resolves to `videos/1/master.m3u8` |
| Fixtures.PlaylistPath | src/api.test.ts:50 | `variantStream.playlist` resolves to `videos/1/stream_2/playlist.m3u8` |
| Fixtures.RelativeCase | src/api.ts:112-122 | two resolved key paths and the calculator's result on their paths give the relative path between the nodes |
| Fixtures.ManifestToPlaylistFs | src/api.test.ts:54 | the calculator gives `../stream_2/playlist.m3u8` between the two fixture paths in `fs` mode |
| Fixtures.ManifestToPlaylistUrl | src/api.test.ts:55 | the calculator gives `stream_2/playlist.m3u8` between the two fixture paths in `url` mode |
| Fixtures.PackageToManifest | src/api.test.ts:68-71 | the calculator gives `master.m3u8` from the package directory in either mode |
| Fixtures.FileToFile | src/api.test.ts:45-58 | from the manifest to the playlist: `../stream_2/playlist.m3u8` in `fs` mode, `stream_2/playlist.m3u8` in `url` mode |
| Fixtures.DirToFile | src/api.test.ts:60-73 | from the package root to the manifest: `master.m3u8` in either mode |
| Fixtures.ThroughFile | src/api.ts:23-25 | a key after a file fails with the file error |
| Fixtures.MissingKey | src/api.ts:27-29 | an unknown key fails with the not-found error naming it |

## Left out

- Exceptions are modelled as values. `traverseToKeypath` and `getPath` throw `Error`. Here they return a `TraversalError`, and `Api.ErrorMessage` gives the thrown message.
- The callback of `traverseToKeypath` is not a parameter. Its only caller, `getPath`, appends one segment per node, so the method returns the list of nodes the callback would receive, in order, and `getPath` replays the callback body over that list.
- Nodes and dependencies are datatypes, not JavaScript objects. So the model leaves out:
  - the `in` operator's prototype chain (a key such as `toString` is "in" every object);
  - `typeof` on the dependency argument, where `null` and non-object values are modelled only as an absent argument.
- Dynamic path functions are opaque `Deps -> string` values, each declaring its parameter set.
  - In the fixtures, template strings are written out over integers and strings; floating-point numbers are not modelled.
  - Whether a function reads only its declared parameters is the predicate `ReadsOnly`.
- The type-level inference modules are not part of this model. They compute key paths, dependency types and path types at compile time and have no run-time code: `src/types/multi-node.ts`, `src/types/single-node.ts` and `src/utils/types.ts`.
- The compile-time type tests are not modelled as such. Their rejected and accepted constructions appear as `Model.RejectedPaths`.
- The `path.join` and `new URL` oracles of the calculator's tests depend on Node and WHATWG semantics and are not modelled. In their place, `RelativePath.Resolve` resolves a relative path's components, and `RelativePath.RoundTrip` states the round trip for targets without `.` or `..` components.
- `RelativePath.RoundTrip`: it resolves against the base's components as the calculator splits them, so a `.` or `..` in the base is a folder name and a doubled `/` leaves no empty piece. For such bases the calculator's result does not resolve back under the tests' oracles, and the lemma does not say it does. In `fs` mode `"a/./b"` to `"a/c"` gives `"../../c"`, and `path.join("a/./b", "../../c")` is `"c"`. In `url` mode `"a//b/"` to `"c"` gives `"../../c"`, and against `https://foo.bar/a//b/` that is `/a/c`. The same holds of `RelativePath.StepsReachTarget`, whose `fromParts` are plain names.
- `Model.ValidPath` is stricter than the `PathArg` type. The type rejects a function only when its declared result type is the literal `""`; `ValidPath` demands that the function never yields `""` and reads only its declared parameters. `file(({ name }: { name: string }) => name)` type-checks but can yield `""`, and such a tree is outside `ValidPath`. `Api.SegmentNonEmpty` and `Api.ResolvedTrailingSlash` rely on the non-empty part, `Api.ConcatAgree` and `Api.DepsIrrelevant` on the reads-only part.
- `Api.TraverseToKeypath`: its `ensures` ties the result to `WalkFrom`. That each visited node is the child of the previous one under the next key is stated by the lemma `Api.WalkFollowsKeys` about `WalkFrom`, not repeated in the method's contract.
- Children are a `map<string, Node>`, so the rule that children have string keys and node values is enforced by the type, not by a predicate.
- `src/mod.ts` and `src/__testing/helpers.ts` are re-exports and a lookup table. They are not part of this model.
