/**
 * The part of `pathlib.PurePosixPath` the engine uses: parsing a string into
 * components, `name`, `parent`, joining one name with `/`, and `str()`.
 * Parsing drops empty and "." components, as pathlib does.
 */
module Paths {
  import opened Text

  datatype PurePath = PurePath(absolute: bool, parts: seq<string>)

  /** A component as pathlib keeps it: not empty, not ".", without a separator. */
  predicate IsComponent(c: string) {
    c != "" && c != "." && '/' !in c
  }

  predicate WellFormed(p: PurePath) {
    forall k :: 0 <= k < |p.parts| ==> IsComponent(p.parts[k])
  }

  function KeepComponents(pieces: seq<string>): (r: seq<string>)
    ensures forall k :: 0 <= k < |r| ==> r[k] != "" && r[k] != "."
    ensures forall k :: 0 <= k < |r| ==> r[k] in pieces
  {
    if pieces == [] then []
    else if pieces[0] == "" || pieces[0] == "." then KeepComponents(pieces[1..])
    else [pieces[0]] + KeepComponents(pieces[1..])
  }

  /** `PurePosixPath(s)`. */
  function Parse(s: string): (p: PurePath)
    ensures WellFormed(p)
  {
    var pieces := Split(s, '/');
    var parts := KeepComponents(pieces);
    assert forall k :: 0 <= k < |parts| ==> '/' !in parts[k];
    PurePath(s != [] && s[0] == '/', parts)
  }

  /** `str(p)`. */
  function Str(p: PurePath): string {
    if p.absolute then "/" + Join(p.parts, "/")
    else if p.parts == [] then "."
    else Join(p.parts, "/")
  }

  /** `p.name`: the last component, or "" for the root or the empty path. */
  function Name(p: PurePath): string {
    if p.parts == [] then "" else p.parts[|p.parts| - 1]
  }

  /** `p.parent`: the path without its last component; the root and "." are their own parents. */
  function Parent(p: PurePath): PurePath {
    if p.parts == [] then p else PurePath(p.absolute, p.parts[..|p.parts| - 1])
  }

  /** `p / name` for a name that is empty or a single component. */
  function Child(p: PurePath, name: string): PurePath {
    if name == "" then p else PurePath(p.absolute, p.parts + [name])
  }

  /** A name taken from a parsed path is empty or one component. */
  lemma NameIsComponent(p: PurePath)
    requires WellFormed(p)
    ensures Name(p) == "" || IsComponent(Name(p))
  {
  }

  /** The child keeps the name it was given, and its parent is the path it was built from. */
  lemma ChildNameParent(p: PurePath, name: string)
    requires IsComponent(name)
    ensures Name(Child(p, name)) == name
    ensures Parent(Child(p, name)) == p
  {
    assert (p.parts + [name])[..|p.parts|] == p.parts;
  }

  lemma {:induction false} KeepComponentsIdentity(parts: seq<string>)
    requires forall k :: 0 <= k < |parts| ==> IsComponent(parts[k])
    ensures KeepComponents(parts) == parts
  {
    if parts != [] {
      KeepComponentsIdentity(parts[1..]);
      assert [parts[0]] + parts[1..] == parts;
    }
  }

  /** Printing a well-formed relative path with components and parsing it again gives the same path. */
  lemma ParseStrRelative(p: PurePath)
    requires WellFormed(p) && !p.absolute && p.parts != []
    ensures Parse(Str(p)) == p
  {
    SplitJoin(p.parts, '/');
    KeepComponentsIdentity(p.parts);
    assert Join(p.parts, "/") == Join(p.parts, ['/']);
    assert p.parts[0] != [];
    assert Str(p)[0] == p.parts[0][0];
  }
}
