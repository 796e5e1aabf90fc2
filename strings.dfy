/**
 * The JavaScript string and array built-ins that the path library relies on,
 * stated over `seq<char>` and `seq<string>`: `endsWith`, `lastIndexOf`,
 * `split`, `join`, `filter(Boolean)` and `Array.from({length: n}, () => x)`.
 */
module Strings {
  import Seqs

  /** `s.endsWith(c)` for a one-character suffix. */
  predicate EndsWith(s: string, c: char) {
    |s| > 0 && s[|s| - 1] == c
  }

  /** `parts.join(sep)`: the parts with `sep` between neighbours, `""` for no parts. */
  function Join(parts: seq<string>, sep: string): string
  {
    if |parts| == 0 then ""
    else if |parts| == 1 then parts[0]
    else parts[0] + sep + Join(parts[1..], sep)
  }

  /**
   * `s.split(c)` for a one-character separator: the maximal runs between
   * separators, so there is always at least one piece (`"".split(c)` is
   * `[""]`), no piece contains `c`, and joining the pieces back gives `s`.
   */
  function Split(s: string, c: char): (parts: seq<string>)
    ensures |parts| >= 1
    ensures forall i :: 0 <= i < |parts| ==> c !in parts[i]
    ensures Join(parts, [c]) == s
  {
    if |s| == 0 then [""]
    else
      var rest := Split(s[1..], c);
      if s[0] == c then
        [""] + rest
      else
        var parts := [[s[0]] + rest[0]] + rest[1..];
        assert parts[1..] == rest[1..];
        assert s == [s[0]] + s[1..];
        parts
  }

  /** `s.lastIndexOf(c)`: the index of the last `c` in `s`, or -1 when there is none. */
  function LastIndexOf(s: string, c: char): (i: int)
    ensures -1 <= i < |s|
    ensures i == -1 <==> c !in s
    ensures 0 <= i ==> s[i] == c && c !in s[i + 1..]
  {
    if |s| == 0 then -1
    else if s[|s| - 1] == c then |s| - 1
    else
      var init := s[..|s| - 1];
      var i := LastIndexOf(init, c);
      LastIndexOfInit(s, c, i);
      i
  }

  /** What the last occurrence in all but the last character says about the whole string, when that character is not `c`. */
  lemma LastIndexOfInit(s: string, c: char, i: int)
    requires |s| > 0 && s[|s| - 1] != c
    requires -1 <= i < |s| - 1
    requires i == -1 <==> c !in s[..|s| - 1]
    requires 0 <= i ==> s[..|s| - 1][i] == c && c !in s[..|s| - 1][i + 1..]
    ensures i == -1 <==> c !in s
    ensures 0 <= i ==> s[i] == c && c !in s[i + 1..]
  {
    var init, last := s[..|s| - 1], s[|s| - 1];
    Seqs.InitLast(s);
    if 0 <= i {
      assert s[i + 1..] == init[i + 1..] + [last];
    }
  }

  /** `parts.filter(Boolean)` on strings: the non-empty parts, in order. */
  function DropEmpty(parts: seq<string>): (r: seq<string>)
    ensures |r| <= |parts|
    ensures forall i :: 0 <= i < |r| ==> r[i] != "" && r[i] in parts
    ensures forall i :: 0 <= i < |parts| && parts[i] != "" ==> parts[i] in r
  {
    if |parts| == 0 then []
    else
      var rest := DropEmpty(parts[1..]);
      assert forall i :: 1 <= i < |parts| ==> parts[i] == parts[1..][i - 1];
      if parts[0] == "" then rest else [parts[0]] + rest
  }

  /** `Array.from({length: n}, () => x)`: `n` copies of `x`. */
  function Repeat(x: string, n: nat): (r: seq<string>)
    ensures |r| == n
    ensures forall i :: 0 <= i < n ==> r[i] == x
  {
    if n == 0 then [] else [x] + Repeat(x, n - 1)
  }

  /** The components of a `/`-separated path: `s.split('/').filter(Boolean)`. */
  function Components(s: string): (parts: seq<string>)
    ensures forall i :: 0 <= i < |parts| ==> parts[i] != "" && '/' !in parts[i]
  {
    DropEmpty(Split(s, '/'))
  }

  /** Every part is non-empty and free of `c`: what splitting and dropping empties leaves. */
  predicate Clean(parts: seq<string>, c: char) {
    forall i :: 0 <= i < |parts| ==> parts[i] != "" && c !in parts[i]
  }

  // ---------------------------------------------------------------------
  // Lemmas

  /** Joining a concatenation puts one separator between the two joins, unless a side is empty. */
  lemma {:induction false} JoinAppend(a: seq<string>, b: seq<string>, sep: string)
    ensures Join(a + b, sep) ==
      if a == [] then Join(b, sep)
      else if b == [] then Join(a, sep)
      else Join(a, sep) + sep + Join(b, sep)
  {
    if a == [] {
      assert a + b == b;
    } else if b == [] {
      assert a + b == a;
    } else if |a| == 1 {
      assert (a + b)[1..] == b;
    } else {
      assert (a + b)[1..] == a[1..] + b;
      JoinAppend(a[1..], b, sep);
    }
  }

  /** Splitting around one separator splits each side separately. */
  lemma {:induction false} SplitAround(a: string, b: string, c: char)
    ensures Split(a + [c] + b, c) == Split(a, c) + Split(b, c)
  {
    var s := a + [c] + b;
    if a == [] {
      assert s == [c] + b;
      assert s[1..] == b;
      assert Split(s, c) == [""] + Split(b, c);
    } else {
      assert s[0] == a[0];
      assert s[1..] == a[1..] + [c] + b;
      var tail, right := Split(a[1..], c), Split(b, c);
      SplitAround(a[1..], b, c);
      var rest := Split(s[1..], c);
      assert rest == tail + right;
      if a[0] == c {
        assert Split(s, c) == [""] + rest;
        assert Split(a, c) == [""] + tail;
        Seqs.AppendAssoc([""], tail, right);
      } else {
        Seqs.TailAppend(tail, right);
        assert Split(s, c) == [[a[0]] + rest[0]] + rest[1..];
        assert Split(a, c) == [[a[0]] + tail[0]] + tail[1..];
        Seqs.AppendAssoc([[a[0]] + tail[0]], tail[1..], right);
      }
    }
  }

  /** A string without the separator splits into itself alone. */
  lemma {:induction false} SplitNoSeparator(s: string, c: char)
    requires c !in s
    ensures Split(s, c) == [s]
  {
    if s != [] {
      assert c !in s[1..];
      SplitNoSeparator(s[1..], c);
      assert s == [s[0]] + s[1..];
    }
  }

  /** Splitting undoes joining, when no part contains the separator. */
  lemma {:induction false} SplitJoin(parts: seq<string>, c: char)
    requires |parts| >= 1
    requires forall i :: 0 <= i < |parts| ==> c !in parts[i]
    ensures Split(Join(parts, [c]), c) == parts
  {
    if |parts| == 1 {
      SplitNoSeparator(parts[0], c);
    } else {
      SplitJoin(parts[1..], c);
      SplitNoSeparator(parts[0], c);
      SplitAround(parts[0], Join(parts[1..], [c]), c);
      assert parts == [parts[0]] + parts[1..];
    }
  }

  /** Dropping empty parts distributes over concatenation. */
  lemma {:induction false} DropEmptyAppend(a: seq<string>, b: seq<string>)
    ensures DropEmpty(a + b) == DropEmpty(a) + DropEmpty(b)
  {
    if a == [] {
      assert a + b == b;
    } else {
      assert (a + b)[1..] == a[1..] + b;
      DropEmptyAppend(a[1..], b);
    }
  }

  /** Dropping empty parts leaves a list of non-empty parts unchanged. */
  lemma {:induction false} DropEmptyNonEmpty(parts: seq<string>)
    requires forall i :: 0 <= i < |parts| ==> parts[i] != ""
    ensures DropEmpty(parts) == parts
  {
    if parts != [] {
      DropEmptyNonEmpty(parts[1..]);
    }
  }

  /** The components of `a/b` are those of `a` followed by those of `b`. */
  lemma ComponentsAround(a: string, b: string)
    ensures Components(a + "/" + b) == Components(a) + Components(b)
  {
    SplitAround(a, b, '/');
    DropEmptyAppend(Split(a, '/'), Split(b, '/'));
  }

  /** A non-empty string without `/` is its own single component. */
  lemma ComponentsOfName(s: string)
    requires s != "" && '/' !in s
    ensures Components(s) == [s]
  {
    SplitNoSeparator(s, '/');
  }

  /** Joining clean parts with `/` and taking components gives the parts back. */
  lemma ComponentsJoin(parts: seq<string>)
    requires Clean(parts, '/')
    ensures Components(Join(parts, "/")) == parts
  {
    if parts == [] {
    } else {
      SplitJoin(parts, '/');
      DropEmptyNonEmpty(parts);
    }
  }

  /** A join of non-empty parts is empty exactly when there are no parts, and ends as the last part does. */
  lemma {:induction false} JoinEnd(parts: seq<string>, sep: string)
    requires forall i :: 0 <= i < |parts| ==> parts[i] != ""
    ensures Join(parts, sep) == "" <==> parts == []
    ensures parts != [] ==>
      var j := Join(parts, sep);
      var last := parts[|parts| - 1];
      j[|j| - 1] == last[|last| - 1]
  {
    if |parts| > 1 {
      JoinEnd(parts[1..], sep);
    }
  }
}
