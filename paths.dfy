/**
 * The parts of `pathlib` and of the filesystem that the model lifecycle
 * uses: turning a string into a path, joining a child name, and a
 * filesystem of directories and files with `is_dir`, `is_file`,
 * `mkdir(parents=True)` and `write_text`.
 */
module Pathlib {
  import opened Json

  /** A POSIX path: rooted or not, and its components in order. */
  datatype Path = Path(absolute: bool, parts: seq<string>)

  /** A component `pathlib` keeps: not empty, not ".", with no separator. */
  predicate IsComponent(c: string)
  {
    c != "" && c != "." && '/' !in c
  }

  predicate WellFormed(p: Path)
  {
    forall i :: 0 <= i < |p.parts| ==> IsComponent(p.parts[i])
  }

  /** The index of the first '/' in `s`, or `|s|` when there is none. */
  function SlashIndex(s: string): (k: nat)
    ensures k <= |s|
    ensures '/' !in s[..k]
    ensures k < |s| ==> s[k] == '/'
  {
    if s == [] || s[0] == '/' then 0
    else
      var k := 1 + SlashIndex(s[1..]);
      assert s[..k] == [s[0]] + s[1..][..k - 1];
      k
  }

  /** The components of `s` split at '/', without empty and "." pieces. */
  function Components(s: string): (cs: seq<string>)
    ensures forall i :: 0 <= i < |cs| ==> IsComponent(cs[i])
    decreases |s|
  {
    var k := SlashIndex(s);
    var head := s[..k];
    var rest := if k < |s| then Components(s[k + 1..]) else [];
    if head == "" || head == "." then rest else [head] + rest
  }

  /** `pathlib.Path(s)`. */
  function ParsePath(s: string): (p: Path)
    ensures WellFormed(p)
    ensures p.absolute <==> |s| > 0 && s[0] == '/'
  {
    Path(|s| > 0 && s[0] == '/', Components(s))
  }

  function JoinParts(parts: seq<string>): string
  {
    if parts == [] then ""
    else if |parts| == 1 then parts[0]
    else parts[0] + "/" + JoinParts(parts[1..])
  }

  /**
   * `str(p)`: "/" for the root, "." for the empty relative path; the text
   * starts with '/' exactly when a well-formed path is rooted.
   */
  function Format(p: Path): (r: string)
    ensures WellFormed(p) ==> |r| > 0
    ensures p.absolute ==> |r| > 0 && r[0] == '/'
    ensures WellFormed(p) && !p.absolute ==> r[0] != '/'
  {
    assert p.parts != [] ==> p.parts[0] != [] ==> JoinParts(p.parts)[0] == p.parts[0][0];
    if p.absolute then "/" + JoinParts(p.parts)
    else if p.parts == [] then "."
    else JoinParts(p.parts)
  }

  lemma {:induction false} SlashIndexAfterComponent(c: string, t: string)
    requires '/' !in c
    requires t == [] || t[0] == '/'
    ensures SlashIndex(c + t) == |c|
    decreases |c|
  {
    if c != [] {
      assert (c + t)[1..] == c[1..] + t;
      SlashIndexAfterComponent(c[1..], t);
    }
  }

  lemma {:induction false} ComponentsOfJoin(parts: seq<string>)
    requires forall i :: 0 <= i < |parts| ==> IsComponent(parts[i])
    ensures Components(JoinParts(parts)) == parts
    decreases |parts|
  {
    if |parts| == 1 {
      SlashIndexAfterComponent(parts[0], []);
      assert parts[0] + [] == parts[0];
    } else if |parts| > 1 {
      var c, t := parts[0], JoinParts(parts[1..]);
      var s := c + ("/" + t);
      assert s == JoinParts(parts);
      SlashIndexAfterComponent(c, "/" + t);
      assert s[..|c|] == c;
      assert s[|c| + 1..] == t;
      ComponentsOfJoin(parts[1..]);
      assert parts == [c] + parts[1..];
    }
  }

  /** A string without separators is one component, unless it is empty or ".". */
  lemma ComponentsOfSegment(c: string)
    requires '/' !in c
    ensures Components(c) == if c == "" || c == "." then [] else [c]
  {
    SlashIndexAfterComponent(c, []);
    assert c + [] == c;
  }

  lemma {:induction false} SlashIndexAppend(a: string, t: string)
    requires SlashIndex(a) < |a|
    ensures SlashIndex(a + t) == SlashIndex(a)
    decreases |a|
  {
    if a[0] != '/' {
      assert (a + t)[1..] == a[1..] + t;
      SlashIndexAppend(a[1..], t);
    }
  }

  /** Splitting at a '/' splits the components: repeated and trailing separators add nothing. */
  lemma {:induction false} ComponentsOfSlash(a: string, b: string)
    ensures Components(a + ("/" + b)) == Components(a) + Components(b)
    decreases |a|
  {
    var s := a + ("/" + b);
    var k := SlashIndex(a);
    if k == |a| {
      assert a[..k] == a;
      SlashIndexAfterComponent(a, "/" + b);
      assert s[..k] == a && s[k + 1..] == b;
      ComponentsOfSegment(a);
    } else {
      var a1, a2 := a[..k], a[k + 1..];
      SlashIndexAppend(a, "/" + b);
      assert s[..k] == a1;
      assert s[k + 1..] == a2 + ("/" + b);
      ComponentsOfSlash(a2, b);
    }
  }

  /** A path `pathlib` produced prints to a string that parses back to it. */
  lemma ParseFormatRoundTrip(p: Path)
    requires WellFormed(p)
    ensures ParsePath(Format(p)) == p
  {
    ComponentsOfJoin(p.parts);
    if p.absolute {
      var s := "/" + JoinParts(p.parts);
      assert s[..SlashIndex(s)] == "";
      assert s[1..] == JoinParts(p.parts);
    } else if p.parts == [] {
      assert Components(".") == [];
    } else {
      assert JoinParts(p.parts)[0] == p.parts[0][0];
    }
  }

  /** `p / name`. */
  function Child(p: Path, name: string): Path
  {
    Path(p.absolute, p.parts + [name])
  }

  /** `p.parent`; the root and the empty path are their own parents. */
  function Parent(p: Path): Path
  {
    if p.parts == [] then p else Path(p.absolute, p.parts[..|p.parts| - 1])
  }

  /** `p` and every ancestor of it except the root or the working directory. */
  function Prefixes(p: Path): set<Path>
  {
    set i | 1 <= i <= |p.parts| :: Path(p.absolute, p.parts[..i])
  }

  /** The root and the working directory always exist as directories. */
  predicate IsDirIn(dirs: set<Path>, p: Path)
  {
    p.parts == [] || p in dirs
  }

  /**
   * `p.mkdir(parents=True)` succeeds: nothing exists at `p` yet and no
   * ancestor of `p` (nor `p`) is a regular file.
   */
  predicate CanMakeDirs(dirs: set<Path>, files: map<Path, Value>, p: Path)
  {
    !IsDirIn(dirs, p) && p !in files && Prefixes(p) !! files.Keys
  }

  /** `p.write_text(...)` succeeds: `p` is not a directory and its parent is one. */
  predicate CanWrite(dirs: set<Path>, p: Path)
  {
    !IsDirIn(dirs, p) && IsDirIn(dirs, Parent(p))
  }

  /** The directories and regular files of the machine. */
  class FileSystem {
    var dirs: set<Path>
    var files: map<Path, Value>

    /**
     * Nothing is both a directory and a regular file, and the root (or the
     * working directory) is a directory.
     */
    ghost predicate Valid()
      reads this
    {
      dirs !! files.Keys && forall p :: p in files ==> p.parts != []
    }

    constructor (dirs: set<Path>, files: map<Path, Value>)
      requires dirs !! files.Keys && forall p :: p in files ==> p.parts != []
      ensures Valid()
      ensures this.dirs == dirs && this.files == files
    {
      this.dirs := dirs;
      this.files := files;
    }

    predicate IsDir(p: Path)
      reads this
    {
      IsDirIn(dirs, p)
    }

    predicate IsFile(p: Path)
      reads this
    {
      p in files
    }

    /** `p.mkdir(parents=True)`: creates `p` and its missing ancestors, or raises. */
    method MakeDirs(p: Path) returns (ok: bool)
      requires Valid()
      modifies this
      ensures Valid()
      ensures ok <==> CanMakeDirs(old(dirs), old(files), p)
      ensures files == old(files)
      ensures dirs == if ok then old(dirs) + Prefixes(p) else old(dirs)
      ensures ok ==> IsDir(p)
    {
      ok := !IsDir(p) && p !in files && Prefixes(p) !! files.Keys;
      if ok {
        assert p == Path(p.absolute, p.parts[..|p.parts|]);
        dirs := dirs + Prefixes(p);
      }
    }

    /** `p.write_text(...)`: creates or overwrites the file, or raises. */
    method WriteText(p: Path, v: Value) returns (ok: bool)
      requires Valid()
      modifies this
      ensures Valid()
      ensures ok <==> CanWrite(old(dirs), p)
      ensures dirs == old(dirs)
      ensures files == if ok then old(files)[p := v] else old(files)
      ensures ok ==> IsFile(p) && files[p] == v
    {
      ok := !IsDir(p) && IsDir(Parent(p));
      if ok {
        files := files[p := v];
      }
    }
  }
}
