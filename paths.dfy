/**
 * Node's `path.join` and `path.dirname` on paths held as sequences of
 * segments.  A path is absolute: `[]` is the file-system root and
 * `["home", "u"]` is `/home/u`.  Both `/` and `\` separate segments, as
 * in the Windows flavour of the path module.
 */
module Paths {

  type Path = seq<string>

  predicate IsSeparator(c: char) { c == '/' || c == '\\' }

  predicate NoSeparator(s: string) { forall i :: 0 <= i < |s| ==> !IsSeparator(s[i]) }

  /** A segment that normalisation keeps as it is. */
  predicate IsPlain(seg: string) { seg != "" && seg != "." && seg != ".." && NoSeparator(seg) }

  /** The pieces of `s` between single separators; `"a//b"` gives `["a", "", "b"]`. */
  function Segments(s: string): (r: seq<string>)
    ensures |r| >= 1
    ensures forall k :: 0 <= k < |r| ==> NoSeparator(r[k])
  {
    if s == [] then [""]
    else
      var rest := Segments(s[1..]);
      if IsSeparator(s[0]) then [""] + rest else [[s[0]] + rest[0]] + rest[1..]
  }

  lemma {:induction false} SegmentsOfName(s: string)
    requires NoSeparator(s)
    ensures Segments(s) == [s]
  {
    if s != [] {
      SegmentsOfName(s[1..]);
      assert [s[0]] + s[1..] == s;
    }
  }

  /** One normalisation step: `""` and `"."` vanish, `".."` climbs (not above the root). */
  function Resolve(base: Path, seg: string): Path {
    if seg == "" || seg == "." then base
    else if seg == ".." then (if base == [] then [] else base[..|base| - 1])
    else base + [seg]
  }

  function ResolveAll(base: Path, segs: seq<string>): Path
    decreases segs
  {
    if segs == [] then base else ResolveAll(Resolve(base, segs[0]), segs[1..])
  }

  /** `path.join(base, parts...)`, normalised, for an absolute `base`. */
  function Join(base: Path, parts: seq<string>): Path
    decreases parts
  {
    if parts == [] then base else Join(ResolveAll(base, Segments(parts[0])), parts[1..])
  }

  /** `path.dirname`: the root is its own parent. */
  function Parent(p: Path): (r: Path)
    ensures r <= p
    ensures p != [] ==> |r| == |p| - 1
  {
    if p == [] then [] else p[..|p| - 1]
  }

  /** Without `..`, normalisation only appends: the base stays a prefix. */
  lemma {:induction false} ResolveAllExtends(base: Path, segs: seq<string>)
    requires forall k :: 0 <= k < |segs| ==> segs[k] != ".."
    ensures base <= ResolveAll(base, segs)
    decreases segs
  {
    if segs != [] {
      ResolveAllExtends(Resolve(base, segs[0]), segs[1..]);
    }
  }

  /** Resolving a plain name appends it; resolving an empty name changes nothing. */
  lemma ResolveName(base: Path, name: string)
    requires name == "" || IsPlain(name)
    ensures ResolveAll(base, Segments(name)) == if name == "" then base else base + [name]
  {
    SegmentsOfName(name);
    assert [name][1..] == [];
    assert ResolveAll(base, [name]) == ResolveAll(Resolve(base, name), []);
  }

  /** Joining a plain name appends it; joining an empty name changes nothing. */
  lemma JoinName(base: Path, name: string)
    requires name == "" || IsPlain(name)
    ensures Join(base, [name]) == if name == "" then base else base + [name]
  {
    ResolveName(base, name);
    assert Join(base, [name]) == Join(ResolveAll(base, Segments(name)), []) by {
      assert [name][1..] == [];
    }
  }

  /** Joining a plain name and then anything resolves the rest onto the extended base. */
  lemma JoinAfterName(base: Path, name: string, rest: string)
    requires IsPlain(name)
    ensures Join(base, [name, rest]) == ResolveAll(base + [name], Segments(rest))
  {
    ResolveName(base, name);
    assert Join(base, [name, rest]) == Join(ResolveAll(base, Segments(name)), [rest]) by {
      assert [name, rest][0] == name && [name, rest][1..] == [rest];
    }
    assert Join(base + [name], [rest]) == Join(ResolveAll(base + [name], Segments(rest)), []) by {
      assert [rest][1..] == [];
    }
  }

  /** Joining plain names appends them, as segments. */
  lemma {:induction false} JoinPlain(base: Path, parts: seq<string>)
    requires forall k :: 0 <= k < |parts| ==> IsPlain(parts[k])
    ensures Join(base, parts) == base + parts
    decreases parts
  {
    if parts != [] {
      JoinName(base, parts[0]);
      JoinPlain(base + [parts[0]], parts[1..]);
      assert base + [parts[0]] + parts[1..] == base + parts;
    }
  }

  /** The parts that are not empty, in order. */
  function NonEmptyNames(parts: seq<string>): (r: seq<string>)
    ensures forall k :: 0 <= k < |r| ==> r[k] != ""
    decreases parts
  {
    if parts == [] then []
    else (if parts[0] == "" then [] else [parts[0]]) + NonEmptyNames(parts[1..])
  }

  /** Names that `path.join` takes as they are: each one plain or empty. */
  predicate Joinable(names: seq<string>) {
    forall k :: 0 <= k < |names| ==> names[k] == "" || IsPlain(names[k])
  }

  /** Joining names, some of them empty, appends the non-empty ones. */
  lemma {:induction false} JoinNames(base: Path, parts: seq<string>)
    requires Joinable(parts)
    ensures Join(base, parts) == base + NonEmptyNames(parts)
    decreases parts
  {
    if parts != [] {
      var p, more := parts[0], parts[1..];
      var next := if p == "" then base else base + [p];
      assert Join(base, parts) == Join(next, more) by {
        ResolveName(base, p);
      }
      assert Joinable(more) by {
        assert forall k :: 0 <= k < |more| ==> more[k] == parts[k + 1];
      }
      JoinNames(next, more);
      assert NonEmptyNames(parts) == (if p == "" then [] else [p]) + NonEmptyNames(more);
    }
  }

  /** `path.join(base, names...)` for names without separators or dots: the non-empty ones are appended. */
  function Descend(base: Path, names: seq<string>): Path {
    base + NonEmptyNames(names)
  }

  /** Descend is path.join wherever it applies. */
  lemma DescendIsJoin(base: Path, names: seq<string>)
    requires Joinable(names)
    ensures Descend(base, names) == Join(base, names)
  {
    JoinNames(base, names);
  }
}
