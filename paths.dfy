/** `Path.GetFileName`, `Path.GetFileNameWithoutExtension` and `Path.GetExtension` over paths given as segments. */
module Paths {

  /** The position of the last '.' in a file name, or -1 when there is none (`LastIndexOf('.')`). */
  function LastDot(name: string): (i: int)
    ensures -1 <= i < |name|
    ensures i >= 0 ==> name[i] == '.'
    ensures forall j :: i < j < |name| ==> name[j] != '.'
  {
    if |name| == 0 then -1
    else if name[|name| - 1] == '.' then |name| - 1
    else LastDot(name[..|name| - 1])
  }

  /** `Path.GetFileName`: the last segment. */
  function FileName(path: seq<string>): string
  {
    if |path| == 0 then "" else path[|path| - 1]
  }

  /** `Path.GetFileNameWithoutExtension`: the file name up to its last '.', or all of it. */
  function Stem(name: string): (r: string)
    ensures |r| <= |name| && r == name[..|r|]
  {
    var i := LastDot(name);
    if i < 0 then name else name[..i]
  }

  /** `Path.GetExtension`: from the last '.' on, or "" when there is no '.' or it is the last character. */
  function Extension(name: string): string
  {
    var i := LastDot(name);
    if i < 0 || i == |name| - 1 then "" else name[i..]
  }

  /** When the '.' at position i is the last one, the name splits there. */
  lemma LastDotAt(name: string, i: nat)
    requires i < |name| && name[i] == '.'
    requires forall j :: i < j < |name| ==> name[j] != '.'
    ensures LastDot(name) == i
    ensures Stem(name) == name[..i]
    ensures Extension(name) == if i == |name| - 1 then "" else name[i..]
  {
  }

  /** A name without a '.' has no extension and is its own stem. */
  lemma NoDot(name: string)
    requires forall j :: 0 <= j < |name| ==> name[j] != '.'
    ensures Stem(name) == name && Extension(name) == ""
  {
  }

  /** Unless the name ends in '.', stem and extension put back together give the name; the extension
      is either empty or a '.' followed by no other '.'. */
  lemma StemExtension(name: string)
    ensures |name| == 0 || name[|name| - 1] != '.' ==> Stem(name) + Extension(name) == name
    ensures Extension(name) == "" || (Extension(name)[0] == '.' && forall j :: 1 <= j < |Extension(name)| ==> Extension(name)[j] != '.')
    ensures Extension(name) == "" ==> Stem(name) == name || Stem(name) + "." == name
  {
  }
}
