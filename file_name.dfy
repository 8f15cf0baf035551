/** Splitting a file name into its base name and its extension
    (`getFileNameAndType`), and the last component of a path
    (`java.io.File.getName`). Strings are sequences of characters; the split
    characters `.` and `/` are single UTF-16 units in Java too, so cutting at
    them gives the same pieces. */
module FileName {

  /** `String.lastIndexOf`: the position of the last `c` in `s`, or -1. */
  function LastIndexOf(s: string, c: char): (r: int)
    ensures -1 <= r < |s|
    ensures r >= 0 ==> s[r] == c
    ensures forall i :: r < i < |s| ==> s[i] != c
  {
    if |s| == 0 then -1
    else if s[|s| - 1] == c then |s| - 1
    else LastIndexOf(s[..|s| - 1], c)
  }

  /** The last occurrence is the one with no other after it. */
  lemma LastIndexOfAt(s: string, c: char, k: int)
    requires -1 <= k < |s| && (k >= 0 ==> s[k] == c)
    requires forall i :: k < i < |s| ==> s[i] != c
    ensures LastIndexOf(s, c) == k
  {
  }

  /** The two strings of the Java `String[2]` result. */
  datatype NameAndType = NameAndType(name: string, ext: string)

  /** There is a `.` somewhere after the first character. */
  predicate HasExtension(s: string)
  {
    exists i :: 0 < i < |s| && s[i] == '.'
  }

  /** `getFileNameAndType`: cut at the last `.` when it is not the first
      character; otherwise the whole name and an empty extension. */
  function SplitNameAndType(s: string): (r: NameAndType)
    ensures HasExtension(s) ==> r.name + "." + r.ext == s && r.name != "" && '.' !in r.ext
    ensures !HasExtension(s) ==> r == NameAndType(s, "")
  {
    var pos := LastIndexOf(s, '.');
    if pos > 0 then
      assert s == s[..pos] + "." + s[pos + 1..];
      NameAndType(s[..pos], s[pos + 1..])
    else
      NameAndType(s, "")
  }

  /** Joining a non-empty base name and a dot-free extension, then
      splitting, gives the two parts back. */
  lemma SplitJoin(name: string, ext: string)
    requires name != "" && '.' !in ext
    ensures SplitNameAndType(name + "." + ext) == NameAndType(name, ext)
  {
    var s := name + "." + ext;
    assert s[|name|] == '.';
    assert forall i :: |name| < i < |s| ==> s[i] == ext[i - |name| - 1];
    var pos := LastIndexOf(s, '.');
    assert pos == |name|;
    assert s[..pos] == name && s[pos + 1..] == ext;
  }

  /** `File.getName`: what follows the last `/`, hence a suffix of the path
      without any `/`, and the longest such suffix. */
  function BaseName(path: string): (r: string)
    ensures |r| <= |path| && path[|path| - |r|..] == r
    ensures forall i :: 0 <= i < |r| ==> r[i] != '/'
    ensures |r| < |path| ==> path[|path| - |r| - 1] == '/'
  {
    path[LastIndexOf(path, '/') + 1..]
  }
}
