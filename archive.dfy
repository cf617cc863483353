/**
 * The extraction loop of `downloadAndExtractZip`: each entry of the
 * decoded archive is re-rooted under `<dest>/kcdutils` and becomes a
 * directory or a file on disk.  The download and the zip decoding are
 * not modelled: the entries arrive as a finite sequence, in archive order.
 */
module Archive {
  import opened Wrappers
  import opened Paths

  newtype byte = x: int | 0 <= x < 256

  type Bytes = seq<byte>

  datatype EntryKind = Directory | File

  /** One entry of the archive: its kind, its path inside the zip, and (for a file) its bytes. */
  datatype Entry = Entry(kind: EntryKind, path: string, content: Bytes)

  /** The archive's own top-level folder, and the folder it is unpacked into. */
  const TopFolder: string := "kcdutils"

  /** The unpacked tree: `path.join(dest, 'kcdutils')`. */
  function UnpackRoot(dest: Path): Path {
    dest + [TopFolder]
  }

  /** The entry path starts with `kcdutils/` or `kcdutils\`. */
  predicate HasTopFolder(p: string) {
    |p| > |TopFolder| && p[..|TopFolder|] == TopFolder && IsSeparator(p[|TopFolder|])
  }

  /** `entry.path.replace(/^kcdutils[\\/]/, '')`: at most one leading top folder goes. */
  function StripTopFolder(p: string): string {
    if HasTopFolder(p) then p[|TopFolder| + 1..] else p
  }

  /** `path.join(destPath, 'kcdutils', relativePath)` */
  function Target(dest: Path, p: string): Path {
    Join(dest, [TopFolder, StripTopFolder(p)])
  }

  /** None of the entry path's segments climbs with `..`. */
  predicate DotDotFree(p: string) {
    forall k :: 0 <= k < |Segments(p)| ==> Segments(p)[k] != ".."
  }

  // ---------------------------------------------------------------------
  // Entry paths
  // ---------------------------------------------------------------------

  lemma {:induction false} SegmentsAfterName(a: string, c: char, b: string)
    requires NoSeparator(a) && IsSeparator(c)
    ensures Segments(a + [c] + b) == [a] + Segments(b)
  {
    if a == [] {
      assert a + [c] + b == [c] + b;
      assert ([c] + b)[1..] == b;
    } else {
      assert (a + [c] + b)[0] == a[0];
      assert (a + [c] + b)[1..] == a[1..] + [c] + b;
      SegmentsAfterName(a[1..], c, b);
      assert [a[0]] + a[1..] == a;
    }
  }

  /** The top folder is removed once; a second one stays. */
  lemma StripTopFolderOnce(c: char, q: string)
    requires IsSeparator(c)
    ensures StripTopFolder(TopFolder + [c] + q) == q
  {
    var p := TopFolder + [c] + q;
    assert p[..|TopFolder|] == TopFolder;
    assert p[|TopFolder| + 1..] == q;
  }

  /** `kcdutils/a` and `a` land on the same target, when `a` has no top folder of its own. */
  lemma TargetIgnoresTopFolder(dest: Path, c: char, q: string)
    requires IsSeparator(c) && !HasTopFolder(q)
    ensures Target(dest, TopFolder + [c] + q) == Target(dest, q)
  {
    StripTopFolderOnce(c, q);
  }

  /** The target is the unpack root with the stripped entry path resolved onto it. */
  lemma TargetResolves(dest: Path, p: string)
    ensures Target(dest, p) == ResolveAll(UnpackRoot(dest), Segments(StripTopFolder(p)))
  {
    assert IsPlain(TopFolder);
    JoinAfterName(dest, TopFolder, StripTopFolder(p));
  }

  lemma StrippedDotDotFree(p: string)
    requires DotDotFree(p)
    ensures forall k :: 0 <= k < |Segments(StripTopFolder(p))| ==> Segments(StripTopFolder(p))[k] != ".."
  {
    if HasTopFolder(p) {
      var q := p[|TopFolder| + 1..];
      assert p == TopFolder + [p[|TopFolder|]] + q;
      SegmentsAfterName(TopFolder, p[|TopFolder|], q);
      assert Segments(p) == [TopFolder] + Segments(q);
      forall k | 0 <= k < |Segments(q)| ensures Segments(q)[k] != ".." {
        assert Segments(q)[k] == Segments(p)[k + 1];
      }
    }
  }

  /** An entry path without `..` segments lands inside `<dest>/kcdutils`. */
  lemma TargetUnderRoot(dest: Path, p: string)
    requires DotDotFree(p)
    ensures UnpackRoot(dest) <= Target(dest, p)
  {
    TargetResolves(dest, p);
    StrippedDotDotFree(p);
    ResolveAllExtends(UnpackRoot(dest), Segments(StripTopFolder(p)));
  }

  lemma SegmentsClimbTwice(n: string)
    requires NoSeparator(n)
    ensures Segments(".." + ['/'] + (".." + ['/'] + n)) == ["..", "..", n]
  {
    SegmentsAfterName("..", '/', n);
    SegmentsOfName(n);
    SegmentsAfterName("..", '/', ".." + ['/'] + n);
  }

  lemma ResolveClimbTwice(dest: Path, n: string)
    requires IsPlain(n)
    ensures ResolveAll(UnpackRoot(dest), ["..", "..", n]) == Parent(dest) + [n]
  {
    var segs := ["..", "..", n];
    assert segs[1..] == ["..", n] && segs[1..][1..] == [n] && [n][1..] == [];
    assert ResolveAll(UnpackRoot(dest), segs) == ResolveAll(dest, ["..", n]);
    assert ResolveAll(dest, ["..", n]) == ResolveAll(Parent(dest), [n]);
    assert ResolveAll(Parent(dest), [n]) == ResolveAll(Parent(dest) + [n], []);
  }

  /** With `..` segments nothing keeps an entry inside: `kcdutils/../../n` climbs out of the destination. */
  lemma TargetCanEscape(dest: Path, n: string)
    requires IsPlain(n)
    ensures Target(dest, TopFolder + ['/'] + (".." + ['/'] + (".." + ['/'] + n))) == Parent(dest) + [n]
  {
    var q := ".." + ['/'] + (".." + ['/'] + n);
    StripTopFolderOnce('/', q);
    TargetResolves(dest, TopFolder + ['/'] + q);
    SegmentsClimbTwice(n);
    ResolveClimbTwice(dest, n);
  }

  // ---------------------------------------------------------------------
  // The disk
  // ---------------------------------------------------------------------

  /** The file system as a value: its directories and the bytes of its files. */
  datatype Disk = Disk(dirs: set<Path>, files: map<Path, Bytes>)

  /** The root always exists as a directory. */
  predicate IsDir(d: Disk, p: Path) { p == [] || p in d.dirs }

  /** `p` and each of its ancestors is a directory. */
  predicate DirChain(d: Disk, p: Path) { forall k :: 0 <= k <= |p| ==> IsDir(d, p[..k]) }

  /** No path is both a directory and a file, and every ancestor of either is a directory. */
  predicate WellFormed(d: Disk) {
    && (forall p :: p in d.dirs ==> p !in d.files && DirChain(d, p))
    && (forall p :: p in d.files ==> p != [] && DirChain(d, Parent(p)))
  }

  /** `p` or one of its ancestors is a file. */
  predicate BlockedByFile(d: Disk, p: Path) { exists k :: 1 <= k <= |p| && p[..k] in d.files }

  /** The non-root ancestors of `p`, `p` included. */
  function Ancestry(p: Path): set<Path> { set k | 1 <= k <= |p| :: p[..k] }

  /**
   * `fs.mkdirSync(p, { recursive: true })`: creates every missing directory
   * on the way to `p`; fails (None) when a file is in the way.
   */
  function AfterMkdir(d: Disk, p: Path): (r: Option<Disk>)
    ensures r.None? <==> BlockedByFile(d, p)
    ensures r.Some? ==> r.value.files == d.files && d.dirs <= r.value.dirs && DirChain(r.value, p)
    ensures r.Some? ==> r.value.dirs == d.dirs + Ancestry(p)
  {
    if BlockedByFile(d, p) then None else Some(Disk(d.dirs + Ancestry(p), d.files))
  }

  /**
   * `fs.createWriteStream(p)` receiving `c`: fails (None) when `p` is a
   * directory or its parent is not one; otherwise `p` holds `c`.
   */
  function AfterWrite(d: Disk, p: Path, c: Bytes): (r: Option<Disk>)
    ensures r.None? <==> IsDir(d, p) || !IsDir(d, Parent(p))
    ensures r.Some? ==> r.value.dirs == d.dirs && r.value.files == d.files[p := c]
  {
    if IsDir(d, p) || !IsDir(d, Parent(p)) then None else Some(Disk(d.dirs, d.files[p := c]))
  }

  /**
   * The `'entry'` handler for one entry.  A failed mkdir throws, which ends
   * the extraction (None).  A failed write is an error on the write stream,
   * which nothing listens to: the entry is lost and extraction goes on.
   */
  function Step(d: Disk, dest: Path, e: Entry): Option<Disk> {
    var t := Target(dest, e.path);
    match e.kind
    case Directory => AfterMkdir(d, t)
    case File =>
      match AfterMkdir(d, Parent(t))
      case None => None
      case Some(d1) =>
        match AfterWrite(d1, t, e.content)
        case None => Some(d1)
        case Some(d2) => Some(d2)
  }

  /** The disk after an extraction run, and whether it ran to the end. */
  datatype Run = Run(disk: Disk, ok: bool)

  /** The entries handled one after another, stopping at the first that throws. */
  function Apply(d: Disk, dest: Path, es: seq<Entry>): Run
    decreases |es|
  {
    if es == [] then Run(d, true)
    else
      var r := Apply(d, dest, es[..|es| - 1]);
      if !r.ok then r
      else match Step(r.disk, dest, es[|es| - 1])
        case None => Run(r.disk, false)
        case Some(d1) => Run(d1, true)
  }

  /** The bytes of the last file entry that maps to `t`, if any. */
  function LastWrite(dest: Path, es: seq<Entry>, t: Path): Option<Bytes>
    decreases |es|
  {
    if es == [] then None
    else
      var e := es[|es| - 1];
      if e.kind == File && Target(dest, e.path) == t then Some(e.content)
      else LastWrite(dest, es[..|es| - 1], t)
  }

  // ---------------------------------------------------------------------
  // What an extraction does
  // ---------------------------------------------------------------------

  lemma DirChainGrows(d: Disk, d': Disk, p: Path)
    requires DirChain(d, p) && d.dirs <= d'.dirs
    ensures DirChain(d', p)
  {
  }

  lemma StepMonotone(d: Disk, dest: Path, e: Entry)
    requires Step(d, dest, e).Some?
    ensures d.dirs <= Step(d, dest, e).value.dirs
  {
  }

  lemma {:induction false} ApplyMonotone(d: Disk, dest: Path, es: seq<Entry>)
    ensures d.dirs <= Apply(d, dest, es).disk.dirs
    decreases |es|
  {
    if es != [] {
      ApplyMonotone(d, dest, es[..|es| - 1]);
      var r := Apply(d, dest, es[..|es| - 1]);
      if r.ok && Step(r.disk, dest, es[|es| - 1]).Some? {
        StepMonotone(r.disk, dest, es[|es| - 1]);
      }
    }
  }

  lemma AfterMkdirWellFormed(d: Disk, p: Path)
    requires WellFormed(d) && AfterMkdir(d, p).Some?
    ensures WellFormed(AfterMkdir(d, p).value)
  {
    var d' := AfterMkdir(d, p).value;
    forall q | q in d'.dirs ensures q !in d'.files && DirChain(d', q) {
      if q in d.dirs {
        DirChainGrows(d, d', q);
      } else {
        var k :| 1 <= k <= |p| && q == p[..k];
        forall j | 0 <= j <= |q| ensures IsDir(d', q[..j]) {
          assert q[..j] == p[..j];
        }
      }
    }
    forall q | q in d'.files ensures q != [] && DirChain(d', Parent(q)) {
      DirChainGrows(d, d', Parent(q));
    }
  }

  lemma AfterWriteWellFormed(d: Disk, p: Path, c: Bytes)
    requires WellFormed(d) && AfterWrite(d, p, c).Some?
    ensures WellFormed(AfterWrite(d, p, c).value)
  {
    var d' := AfterWrite(d, p, c).value;
    assert DirChain(d, Parent(p)) by {
      if Parent(p) != [] {
        assert Parent(p) in d.dirs;
      }
    }
  }

  lemma StepWellFormed(d: Disk, dest: Path, e: Entry)
    requires WellFormed(d) && Step(d, dest, e).Some?
    ensures WellFormed(Step(d, dest, e).value)
  {
    var t := Target(dest, e.path);
    if e.kind == Directory {
      AfterMkdirWellFormed(d, t);
    } else {
      AfterMkdirWellFormed(d, Parent(t));
      var d1 := AfterMkdir(d, Parent(t)).value;
      if AfterWrite(d1, t, e.content).Some? {
        AfterWriteWellFormed(d1, t, e.content);
      }
    }
  }

  /** Extraction keeps the disk consistent, whether or not it runs to the end. */
  lemma {:induction false} ApplyWellFormed(d: Disk, dest: Path, es: seq<Entry>)
    requires WellFormed(d)
    ensures WellFormed(Apply(d, dest, es).disk)
    decreases |es|
  {
    if es != [] {
      ApplyWellFormed(d, dest, es[..|es| - 1]);
      var r := Apply(d, dest, es[..|es| - 1]);
      if r.ok && Step(r.disk, dest, es[|es| - 1]).Some? {
        StepWellFormed(r.disk, dest, es[|es| - 1]);
      }
    }
  }

  /**
   * After a complete run every directory entry's target exists with all
   * its ancestors, and so does the parent of every file entry's target.
   */
  lemma {:induction false} ApplyCreatesDirectories(d: Disk, dest: Path, es: seq<Entry>)
    requires Apply(d, dest, es).ok
    ensures forall i :: 0 <= i < |es| && es[i].kind == Directory ==>
      DirChain(Apply(d, dest, es).disk, Target(dest, es[i].path))
    ensures forall i :: 0 <= i < |es| && es[i].kind == File ==>
      DirChain(Apply(d, dest, es).disk, Parent(Target(dest, es[i].path)))
    decreases |es|
  {
    if es != [] {
      var init := es[..|es| - 1];
      var e := es[|es| - 1];
      var r := Apply(d, dest, init);
      ApplyCreatesDirectories(d, dest, init);
      var d' := Apply(d, dest, es).disk;
      StepMonotone(r.disk, dest, e);
      forall i | 0 <= i < |es| ensures
        && (es[i].kind == Directory ==> DirChain(d', Target(dest, es[i].path)))
        && (es[i].kind == File ==> DirChain(d', Parent(Target(dest, es[i].path))))
      {
        if i < |es| - 1 {
          assert es[i] == init[i];
          if es[i].kind == Directory {
            DirChainGrows(r.disk, d', Target(dest, es[i].path));
          } else {
            DirChainGrows(r.disk, d', Parent(Target(dest, es[i].path)));
          }
        } else if e.kind == File {
          var t := Target(dest, e.path);
          var d1 := AfterMkdir(r.disk, Parent(t)).value;
          DirChainGrows(d1, d', Parent(t));
        }
      }
    }
  }

  /** One entry leaves every path it does not write to as it was. */
  lemma StepOtherFiles(d: Disk, dest: Path, e: Entry, t: Path)
    requires Step(d, dest, e).Some?
    requires !(e.kind == File && Target(dest, e.path) == t)
    ensures var f := Step(d, dest, e).value.files;
      (t in f <==> t in d.files) && (t in f ==> f[t] == d.files[t])
  {
  }

  /** A file entry's bytes end up at its target unless that target is a directory. */
  lemma StepWrites(d: Disk, dest: Path, e: Entry)
    requires Step(d, dest, e).Some? && e.kind == File
    requires !IsDir(Step(d, dest, e).value, Target(dest, e.path))
    ensures var f := Step(d, dest, e).value.files;
      Target(dest, e.path) in f && f[Target(dest, e.path)] == e.content
  {
    var t := Target(dest, e.path);
    var d1 := AfterMkdir(d, Parent(t)).value;
    assert Parent(t)[..|Parent(t)|] == Parent(t);
    assert IsDir(d1, Parent(t));
  }

  /**
   * What a file path holds afterwards: unchanged when no file entry maps to
   * it; after a complete run, the bytes of the last file entry mapping to it,
   * unless it ended up a directory (then that write was refused).
   */
  lemma {:induction false} ApplyFileContents(d: Disk, dest: Path, es: seq<Entry>, t: Path)
    ensures LastWrite(dest, es, t).None? ==>
      var f := Apply(d, dest, es).disk.files;
      (t in f <==> t in d.files) && (t in f ==> f[t] == d.files[t])
    ensures Apply(d, dest, es).ok && LastWrite(dest, es, t).Some? && !IsDir(Apply(d, dest, es).disk, t) ==>
      var f := Apply(d, dest, es).disk.files;
      t in f && f[t] == LastWrite(dest, es, t).value
    decreases |es|
  {
    if es != [] {
      var init := es[..|es| - 1];
      var e := es[|es| - 1];
      var r := Apply(d, dest, init);
      ApplyFileContents(d, dest, init, t);
      if r.ok && Step(r.disk, dest, e).Some? {
        var d' := Step(r.disk, dest, e).value;
        assert Apply(d, dest, es) == Run(d', true);
        StepMonotone(r.disk, dest, e);
        if e.kind == File && Target(dest, e.path) == t {
          if !IsDir(d', t) {
            StepWrites(r.disk, dest, e);
          }
        } else {
          StepOtherFiles(r.disk, dest, e, t);
          assert LastWrite(dest, es, t) == LastWrite(dest, init, t);
        }
      }
    }
  }

  lemma {:induction false} LastWriteUnderRoot(dest: Path, es: seq<Entry>, t: Path)
    requires forall i :: 0 <= i < |es| ==> DotDotFree(es[i].path)
    requires LastWrite(dest, es, t).Some?
    ensures UnpackRoot(dest) <= t
    decreases |es|
  {
    var e := es[|es| - 1];
    if e.kind == File && Target(dest, e.path) == t {
      TargetUnderRoot(dest, e.path);
    } else {
      LastWriteUnderRoot(dest, es[..|es| - 1], t);
    }
  }

  /** Two prefixes of one path are prefixes of one another. */
  lemma PrefixesComparable(a: Path, b: Path, t: Path)
    requires a <= t && b <= t
    ensures a <= b || b <= a
  {
    if |a| <= |b| {
      assert a == b[..|a|];
    } else {
      assert b == a[..|b|];
    }
  }

  lemma StepDirsAlongRoot(d: Disk, dest: Path, e: Entry)
    requires DotDotFree(e.path) && Step(d, dest, e).Some?
    ensures forall q :: q in Step(d, dest, e).value.dirs && q !in d.dirs ==>
      q <= UnpackRoot(dest) || UnpackRoot(dest) <= q
  {
    var t := Target(dest, e.path);
    TargetUnderRoot(dest, e.path);
    forall q | q in Step(d, dest, e).value.dirs && q !in d.dirs
      ensures q <= UnpackRoot(dest) || UnpackRoot(dest) <= q
    {
      var p := if e.kind == Directory then t else Parent(t);
      var d1 := AfterMkdir(d, p).value;
      assert q in d1.dirs;
      var k :| 1 <= k <= |p| && q == p[..k];
      assert q <= t;
      PrefixesComparable(q, UnpackRoot(dest), t);
    }
  }

  /**
   * An archive whose entry paths have no `..` segments changes no file
   * outside `<dest>/kcdutils`, and the only directories it creates outside
   * it are the ancestors of `<dest>/kcdutils` itself.
   */
  lemma {:induction false} ApplyStaysUnderRoot(d: Disk, dest: Path, es: seq<Entry>)
    requires forall i :: 0 <= i < |es| ==> DotDotFree(es[i].path)
    ensures forall q :: !(UnpackRoot(dest) <= q) ==>
      var f := Apply(d, dest, es).disk.files;
      (q in f <==> q in d.files) && (q in f ==> f[q] == d.files[q])
    ensures forall q :: q in Apply(d, dest, es).disk.dirs && q !in d.dirs ==>
      q <= UnpackRoot(dest) || UnpackRoot(dest) <= q
    decreases |es|
  {
    forall q | !(UnpackRoot(dest) <= q)
      ensures var f := Apply(d, dest, es).disk.files;
        (q in f <==> q in d.files) && (q in f ==> f[q] == d.files[q])
    {
      if LastWrite(dest, es, q).Some? {
        LastWriteUnderRoot(dest, es, q);
      }
      ApplyFileContents(d, dest, es, q);
    }
    if es != [] {
      var init := es[..|es| - 1];
      var r := Apply(d, dest, init);
      ApplyStaysUnderRoot(d, dest, init);
      ApplyMonotone(d, dest, init);
      if r.ok && Step(r.disk, dest, es[|es| - 1]).Some? {
        StepDirsAlongRoot(r.disk, dest, es[|es| - 1]);
      }
    }
  }

  /** Once a run has stopped, the remaining entries are never handled. */
  lemma {:induction false} ApplyStopsAtFailure(d: Disk, dest: Path, es: seq<Entry>, i: nat)
    requires i <= |es| && !Apply(d, dest, es[..i]).ok
    ensures Apply(d, dest, es) == Apply(d, dest, es[..i])
    decreases |es|
  {
    if i < |es| {
      var init := es[..|es| - 1];
      assert init[..i] == es[..i];
      ApplyStopsAtFailure(d, dest, init, i);
    } else {
      assert es[..i] == es;
    }
  }

  // ---------------------------------------------------------------------
  // The file system object and the extraction loop
  // ---------------------------------------------------------------------

  /** The disk the extension writes to, changed in place by mkdirSync and the write streams. */
  class FileSystem {
    var dirs: set<Path>
    var files: map<Path, Bytes>

    function State(): Disk
      reads this
    {
      Disk(dirs, files)
    }

    constructor (d: Disk)
      ensures State() == d
    {
      dirs := d.dirs;
      files := d.files;
    }

    /** `fs.mkdirSync(p, { recursive: true })`; `ok` is false where it throws. */
    method MkdirSync(p: Path) returns (ok: bool)
      modifies this
      ensures ok <==> AfterMkdir(old(State()), p).Some?
      ensures ok ==> State() == AfterMkdir(old(State()), p).value
      ensures !ok ==> State() == old(State())
    {
      if BlockedByFile(State(), p) {
        ok := false;
      } else {
        dirs := dirs + Ancestry(p);
        ok := true;
      }
    }

    /** `entry.pipe(fs.createWriteStream(p))`, run to completion; `ok` is false where the stream fails. */
    method WriteFile(p: Path, c: Bytes) returns (ok: bool)
      modifies this
      ensures ok <==> AfterWrite(old(State()), p, c).Some?
      ensures ok ==> State() == AfterWrite(old(State()), p, c).value
      ensures !ok ==> State() == old(State())
    {
      if IsDir(State(), p) || !IsDir(State(), Parent(p)) {
        ok := false;
      } else {
        files := files[p := c];
        ok := true;
      }
    }
  }

  /**
   * The `'entry'` handler applied to the entries in order.  `ok` is false
   * when a mkdir threw, which rejects the extraction's promise; the disk
   * keeps what was done before.
   */
  method Extract(fs: FileSystem, dest: Path, entries: seq<Entry>) returns (ok: bool)
    modifies fs
    ensures Run(fs.State(), ok) == Apply(old(fs.State()), dest, entries)
  {
    ghost var start := fs.State();
    var i := 0;
    ok := true;
    while i < |entries| && ok
      invariant 0 <= i <= |entries|
      invariant Run(fs.State(), ok) == Apply(start, dest, entries[..i])
      decreases |entries| - i
    {
      var e := entries[i];
      var target := Target(dest, e.path);
      assert entries[..i + 1][..i] == entries[..i];
      if e.kind == Directory {
        ok := fs.MkdirSync(target);
      } else {
        ok := fs.MkdirSync(Parent(target));
        if ok {
          var written := fs.WriteFile(target, e.content);
        }
      }
      i := i + 1;
    }
    if i < |entries| {
      ApplyStopsAtFailure(start, dest, entries, i);
    } else {
      assert entries[..i] == entries;
    }
  }
}
