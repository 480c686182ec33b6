/**
  The part of Rust's `std::path::Path` that the back end uses, on paths given by
  their components. Components are non-empty, contain no separator and are neither
  "." nor "..", as for the absolute paths the dialogs and the directory walk give.
  Paths are displayed with '/' as the separator.
*/
module Paths {
  import opened Wrappers

  datatype Path = Path(absolute: bool, parts: seq<string>)

  /** `parent()`: none for the root and for the empty path. */
  function Parent(p: Path): (r: Option<Path>)
    ensures r.Some? <==> p.parts != []
    ensures r.Some? ==> r.value.absolute == p.absolute && r.value.parts == p.parts[..|p.parts| - 1]
  {
    if p.parts == [] then None else Some(Path(p.absolute, p.parts[..|p.parts| - 1]))
  }

  /** `file_name()`: the last component. */
  function FileName(p: Path): (r: Option<string>)
    ensures r.Some? <==> p.parts != []
    ensures r.Some? ==> r.value == p.parts[|p.parts| - 1]
  {
    if p.parts == [] then None else Some(p.parts[|p.parts| - 1])
  }

  /** `join()`: an absolute argument replaces the base. */
  function Join(base: Path, rel: Path): Path {
    if rel.absolute then rel else Path(base.absolute, base.parts + rel.parts)
  }

  /** `strip_prefix()`: the rest of `p` after the components of `base`, when `base`
      is a prefix of `p` component by component. */
  function StripPrefix(p: Path, base: Path): (r: Option<Path>)
    ensures r.Some? <==> p.absolute == base.absolute && |base.parts| <= |p.parts| && p.parts[..|base.parts|] == base.parts
    ensures r.Some? ==> !r.value.absolute && Join(base, r.value) == p
  {
    if p.absolute == base.absolute && |base.parts| <= |p.parts| && p.parts[..|base.parts|] == base.parts
    then Some(Path(false, p.parts[|base.parts|..]))
    else None
  }

  /** Stripping a base from a relative path joined onto it gives that path back. */
  lemma StripPrefixOfJoin(base: Path, rel: Path)
    requires !rel.absolute
    ensures StripPrefix(Join(base, rel), base) == Some(rel)
  {
    var p := Join(base, rel);
    assert p.parts[..|base.parts|] == base.parts;
    assert p.parts[|base.parts|..] == rel.parts;
  }

  function JoinParts(parts: seq<string>): string {
    if parts == [] then ""
    else if |parts| == 1 then parts[0]
    else parts[0] + "/" + JoinParts(parts[1..])
  }

  /** `to_str()`. */
  function Display(p: Path): string {
    (if p.absolute then "/" else "") + JoinParts(p.parts)
  }

  /** The position of the last '.' of a file name. */
  function LastDot(name: string): (r: Option<nat>)
    ensures r.Some? ==> r.value < |name| && name[r.value] == '.'
    ensures r.Some? ==> forall k :: r.value < k < |name| ==> name[k] != '.'
    ensures r.None? ==> forall k :: 0 <= k < |name| ==> name[k] != '.'
  {
    if name == [] then None
    else if name[|name| - 1] == '.' then Some(|name| - 1)
    else LastDot(name[..|name| - 1])
  }

  /** The extension of a file name: what follows its last '.', unless that dot
      is the first character (".bashrc" has none). */
  function NameExtension(name: string): (r: Option<string>)
    ensures r.Some? ==> '.' !in r.value
  {
    match LastDot(name)
    case None => None
    case Some(i) => if i == 0 then None else Some(name[i + 1..])
  }

  /** `extension()`. */
  function Extension(p: Path): (r: Option<string>)
    ensures r.Some? ==> p.parts != [] && '.' !in r.value
  {
    match FileName(p)
    case None => None
    case Some(name) => NameExtension(name)
  }

  /** `file_stem()` of a file name: the name without its extension. */
  function NameStem(name: string): string {
    match LastDot(name)
    case None => name
    case Some(i) => if i == 0 then name else name[..i]
  }

  /** `with_extension(ext)` for a non-empty `ext`: the file name's extension, if
      any, is replaced by `ext`. A path without a file name is unchanged. */
  function WithExtension(p: Path, ext: string): (r: Path)
    ensures r.absolute == p.absolute && |r.parts| == |p.parts|
    ensures p.parts != [] ==> Parent(r) == Parent(p)
  {
    if p.parts == [] then p
    else Path(p.absolute, p.parts[..|p.parts| - 1] + [NameStem(p.parts[|p.parts| - 1]) + "." + ext])
  }

  /** A file name with an extension is its stem, a dot and the extension; one
      without is its own stem. */
  lemma NameSplitsAtExtension(name: string)
    ensures NameExtension(name).Some? ==> name == NameStem(name) + "." + NameExtension(name).value
    ensures NameExtension(name).None? ==> NameStem(name) == name
  {
    if LastDot(name).Some? && LastDot(name).value > 0 {
      var i := LastDot(name).value;
      assert name == name[..i] + "." + name[i + 1..];
    }
  }

  /** Replacing the extension keeps the directory and gives the new extension. */
  lemma WithExtensionResult(p: Path, ext: string)
    requires p.parts != [] && p.parts[|p.parts| - 1] != ""
    requires '.' !in ext
    ensures Parent(WithExtension(p, ext)) == Parent(p)
    ensures Extension(WithExtension(p, ext)) == Some(ext)
  {
    var name := p.parts[|p.parts| - 1];
    var stem := NameStem(name);
    assert |stem| > 0;
    var newName := stem + "." + ext;
    var q := WithExtension(p, ext);
    assert q.parts[..|q.parts| - 1] == p.parts[..|p.parts| - 1];
    assert FileName(q) == Some(newName);
    assert newName[|stem|] == '.';
    forall k | |stem| < k < |newName| ensures newName[k] != '.' {
      assert newName[k] == ext[k - |stem| - 1];
    }
    LastDotIsLast(newName, |stem|);
    assert newName[|stem| + 1..] == ext;
  }

  lemma {:induction false} LastDotIsLast(name: string, i: nat)
    requires i < |name| && name[i] == '.'
    requires forall k :: i < k < |name| ==> name[k] != '.'
    ensures LastDot(name) == Some(i)
  {
    if i < |name| - 1 {
      LastDotIsLast(name[..|name| - 1], i);
    }
  }
}
