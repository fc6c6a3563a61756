/** The parts of `System.IO.Path` the program uses, as .NET behaves on a Unix
    file system: '/' is the only directory separator and a rooted path is one
    that starts with it. These are assumptions of the model, not derived from
    the program. */
module Paths {

  const Separator: char := '/'

  /** `Path.IsPathRooted`. */
  predicate IsPathRooted(p: string)
  {
    |p| > 0 && p[0] == Separator
  }

  /** `Path.Combine(a, b)`: an empty or rooted `b` stands alone, otherwise the
      two are joined by a single separator. */
  function Combine(a: string, b: string): string
  {
    if b == "" then a
    else if a == "" || IsPathRooted(b) then b
    else if a[|a| - 1] == Separator then a + b
    else a + [Separator] + b
  }

  /** The combined path starts with `a` and ends with `b`, with one separator
      between: the one `a` ends with, or else one added. */
  lemma CombineShape(a: string, b: string)
    ensures var r := Combine(a, b);
      && (b == "" ==> r == a)
      && (b != "" && (a == "" || IsPathRooted(b)) ==> r == b)
      && (a != "" && b != "" && !IsPathRooted(b) ==>
            && |a| + |b| <= |r| <= |a| + |b| + 1
            && r[..|a|] == a
            && r[|r| - |b|..] == b
            && r[|r| - |b| - 1] == Separator
            && (a[|a| - 1] == Separator <==> |r| == |a| + |b|))
  {
  }

  /** Joining onto a rooted folder keeps the result rooted. */
  lemma CombineRooted(folder: string, p: string)
    requires IsPathRooted(folder)
    ensures IsPathRooted(Combine(folder, p))
  {
  }

  /** The last position of `c` in `s`, or -1. */
  function LastIndex(s: string, c: char): (r: int)
    ensures -1 <= r < |s|
    ensures r >= 0 ==> s[r] == c
    ensures forall k :: r < k < |s| ==> s[k] != c
  {
    if s == [] then -1
    else if s[|s| - 1] == c then |s| - 1
    else LastIndex(s[..|s| - 1], c)
  }

  /** The scan of `Path.GetExtension`, looking at positions below `i` from the
      right: a dot ends it (an extension unless the dot is the last character),
      a separator ends it with no extension. */
  function ExtensionBelow(p: string, i: nat): (r: string)
    requires i <= |p|
    ensures r != "" ==>
      && |r| <= |p| && |p| - |r| < i && |r| >= 2 && r == p[|p| - |r|..] && r[0] == '.'
      && forall k :: |p| - |r| < k < i ==> p[k] != '.' && p[k] != Separator
    ensures r == "" ==>
      || (i == |p| && i > 0 && p[i - 1] == '.')
      || forall k :: 0 <= k < i && p[k] == '.' ==> exists j :: k < j < i && p[j] == Separator
    decreases i
  {
    if i == 0 then ""
    else if p[i - 1] == '.' then (if i - 1 != |p| - 1 then p[i - 1..] else "")
    else if p[i - 1] == Separator then ""
    else ExtensionBelow(p, i - 1)
  }

  /** `Path.GetExtension`: the final component's text from its last dot on,
      or "" when that component has no dot or ends with one. */
  function GetExtension(p: string): (r: string)
    ensures r != "" ==>
      && 2 <= |r| <= |p| && r == p[|p| - |r|..] && r[0] == '.'
      && forall k :: 1 <= k < |r| ==> r[k] != '.' && r[k] != Separator
    ensures r == "" ==>
      || (|p| > 0 && p[|p| - 1] == '.')
      || forall k :: 0 <= k < |p| && p[k] == '.' ==> exists j :: k < j < |p| && p[j] == Separator
  {
    var r := ExtensionBelow(p, |p|);
    assert r != "" ==> forall k :: 1 <= k < |r| ==> r[k] == p[|p| - |r|..][k];
    r
  }

  /** `Path.GetFileName`: the text after the last separator. */
  function GetFileName(p: string): string
  {
    p[LastIndex(p, Separator) + 1..]
  }

  /** The file name is the end of the path after its last separator. */
  lemma GetFileNameShape(p: string)
    ensures var r := GetFileName(p);
      && |r| <= |p| && r == p[|p| - |r|..]
      && (forall k :: 0 <= k < |r| ==> r[k] != Separator)
      && (|r| < |p| ==> p[|p| - |r| - 1] == Separator)
  {
  }

  /** A file name cut at its last dot, if it has one. */
  function WithoutExtension(name: string): string
  {
    var d := LastIndex(name, '.');
    if d < 0 then name else name[..d]
  }

  /** The cut name is a prefix of the name, ending just before its last dot. */
  lemma WithoutExtensionShape(name: string)
    ensures var r := WithoutExtension(name);
      && |r| <= |name| && name[..|r|] == r
      && (|r| < |name| ==> name[|r|] == '.' && forall k :: |r| < k < |name| ==> name[k] != '.')
      && (|r| == |name| ==> forall k :: 0 <= k < |r| ==> r[k] != '.')
  {
  }

  /** `Path.GetFileNameWithoutExtension`: the file name cut at its last dot. */
  function GetFileNameWithoutExtension(p: string): string
  {
    WithoutExtension(GetFileName(p))
  }

  /** The base name is a prefix of the file name and holds no separator. */
  lemma GetFileNameWithoutExtensionShape(p: string)
    ensures var r := GetFileNameWithoutExtension(p);
      && |r| <= |GetFileName(p)| && GetFileName(p)[..|r|] == r
      && forall k :: 0 <= k < |r| ==> r[k] != Separator
  {
    GetFileNameShape(p);
    WithoutExtensionShape(GetFileName(p));
    var f := GetFileName(p);
    var r := WithoutExtension(f);
    assert forall k :: 0 <= k < |r| ==> r[k] == f[k];
  }
}
