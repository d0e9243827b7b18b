/**
 * The filesystem as a map from paths (sequences of components) to what
 * exists there, with the three operating-system calls the loader makes:
 * checking that a path exists, creating a directory, and renaming a file.
 */
module Files {
  import opened Wrappers

  type Path = seq<string>
  datatype Kind = Dir | File
  type FileSystem = map<Path, Kind>

  /** The path made of the first i + 1 components of p. */
  function Prefix(p: Path, i: nat): (q: Path)
    requires i < |p|
    ensures |q| == i + 1
  {
    p[..i + 1]
  }

  ghost predicate AllPrefixesExist(fs: FileSystem, p: Path) {
    forall i :: 0 <= i < |p| ==> Prefix(p, i) in fs
  }

  /** The filesystem once the first n prefixes of p have been walked with
      creation allowed. */
  function Provisioned(fs: FileSystem, p: Path, n: nat): FileSystem
    requires n <= |p|
  {
    if n == 0 then fs
    else
      var f := Provisioned(fs, p, n - 1);
      var q := Prefix(p, n - 1);
      if q in f then f else f[q := if n == |p| then File else Dir]
  }

  /**
   * After the walk every prefix walked exists and nothing that existed
   * changes; a prefix that was missing is now a directory, except the whole
   * path, which is now the database file, and nothing else is created.
   */
  lemma {:induction false} ProvisionedSpec(fs: FileSystem, p: Path, n: nat)
    requires n <= |p|
    ensures forall i :: 0 <= i < n ==> Prefix(p, i) in Provisioned(fs, p, n)
    ensures forall q :: q in fs ==> q in Provisioned(fs, p, n) && Provisioned(fs, p, n)[q] == fs[q]
    ensures forall q :: q in Provisioned(fs, p, n) && q !in fs ==> exists i :: 0 <= i < n && q == Prefix(p, i)
    ensures forall i :: 0 <= i < n && Prefix(p, i) !in fs ==>
              Provisioned(fs, p, n)[Prefix(p, i)] == if i == |p| - 1 then File else Dir
  {
    if n > 0 {
      ProvisionedSpec(fs, p, n - 1);
      var f := Provisioned(fs, p, n - 1);
      var q := Prefix(p, n - 1);
      var g := Provisioned(fs, p, n);
      assert g == if q in f then f else f[q := if n == |p| then File else Dir];
      forall k | k in f
        ensures k in g && g[k] == f[k]
      {
      }
      forall k | k in g && k !in fs
        ensures exists i :: 0 <= i < n && k == Prefix(p, i)
      {
        if k != q {
          assert k in f;
        }
      }
      forall i | 0 <= i < n - 1 && Prefix(p, i) !in fs
        ensures g[Prefix(p, i)] == f[Prefix(p, i)]
      {
        assert |Prefix(p, i)| != |q|;
      }
    }
  }

  /** One more step of the walk: the next prefix is created exactly when it
      was missing before the walk began. */
  lemma ProvisionedStep(fs: FileSystem, p: Path, n: nat)
    requires n < |p|
    ensures Prefix(p, n) in Provisioned(fs, p, n) <==> Prefix(p, n) in fs
    ensures Provisioned(fs, p, n + 1) ==
              if Prefix(p, n) in fs then Provisioned(fs, p, n)
              else Provisioned(fs, p, n)[Prefix(p, n) := if n == |p| - 1 then File else Dir]
  {
    ProvisionedSpec(fs, p, n);
  }

  function Parent(p: Path): Path
    requires |p| > 0
  {
    p[..|p| - 1]
  }

  /** os.rename: the entry at src moves to dst, replacing what was there;
      None when src is missing or dst has no directory to go into. */
  function Moved(fs: FileSystem, src: Path, dst: Path): (r: Option<FileSystem>)
    requires |dst| > 0
    ensures r.Some? <==> src in fs && Parent(dst) in fs && fs[Parent(dst)] == Dir
    ensures r.Some? ==> dst in r.value && r.value[dst] == fs[src] && (src != dst ==> src !in r.value)
    ensures r.Some? ==> forall q :: q != src && q != dst ==> (q in r.value <==> q in fs)
    ensures r.Some? ==> forall q :: q != src && q != dst && q in fs ==> r.value[q] == fs[q]
  {
    if src in fs && Parent(dst) in fs && fs[Parent(dst)] == Dir then Some((fs - {src})[dst := fs[src]])
    else None
  }

  /** The errno a failed os.rename reports. */
  datatype OsError = NoEntry | NotADirectory

  /** Why os.rename(src, dst) fails. The directory dst goes into is resolved
      before src is looked up, so a regular file there is reported as ENOTDIR
      even when src is missing too; anything else missing is ENOENT. */
  function RenameFault(fs: FileSystem, src: Path, dst: Path): (e: OsError)
    requires |dst| > 0
    ensures e == NotADirectory ==> Moved(fs, src, dst).None?
    ensures e == NoEntry && Moved(fs, src, dst).None? ==> src !in fs || Parent(dst) !in fs
  {
    if Parent(dst) in fs && fs[Parent(dst)] == File then NotADirectory else NoEntry
  }

  /** The filesystem the loader works on. */
  class Disk {
    var entries: FileSystem

    constructor (entries: FileSystem)
      ensures this.entries == entries
    {
      this.entries := entries;
    }

    /** os.path.exists */
    method Exists(p: Path) returns (b: bool)
      ensures b <==> p in entries
    {
      b := p in entries;
    }

    /** os.mkdir */
    method Mkdir(p: Path)
      modifies this
      ensures entries == old(entries)[p := Dir]
    {
      entries := entries[p := Dir];
    }

    /** The empty database file that opening an SQLite connection creates. */
    method CreateFile(p: Path)
      modifies this
      ensures entries == old(entries)[p := File]
    {
      entries := entries[p := File];
    }

    /** os.rename */
    method Rename(src: Path, dst: Path) returns (err: Option<OsError>)
      requires |dst| > 0
      modifies this
      ensures err.None? <==> Moved(old(entries), src, dst).Some?
      ensures err.Some? ==> err.value == RenameFault(old(entries), src, dst)
      ensures entries == if err.None? then Moved(old(entries), src, dst).value else old(entries)
    {
      var r := Moved(entries, src, dst);
      if r.Some? {
        entries := r.value;
        err := None;
      } else {
        err := Some(RenameFault(entries, src, dst));
      }
    }
  }
}
