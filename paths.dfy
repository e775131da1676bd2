/**
 * Absolute POSIX paths as sequences of components, with Python's
 * `os.path.normpath`, `join`, `commonpath`, `dirname` and `basename` over
 * them, the player's directory checks against an abstract file system, and
 * the duration rendering of the player (`mm:ss` or `hh:mm:ss`).
 */
module Paths {
  import opened Text

  /** The components of an absolute path; the root `/` is the empty sequence. */
  type Path = seq<string>

  /** Components as `normpath` leaves them: no empty, `.` or `..` parts and no `/`. */
  predicate Clean(p: Path) {
    forall i :: 0 <= i < |p| ==> p[i] != "" && p[i] != "." && p[i] != ".." && '/' !in p[i]
  }

  /** `"/a/b"` for `[a, b]`; the root is `"/"`. */
  function PathString(p: Path): (s: string)
    ensures |s| > 0 && s[0] == '/'
  {
    if p == [] then "/" else Components(p)
  }

  /** `"/a/b"` for `[a, b]` and `""` for the root. */
  function Components(p: Path): (s: string)
    ensures p != [] ==> |s| > 0 && s[0] == '/'
  {
    if p == [] then "" else "/" + p[0] + Components(p[1..])
  }

  /** `os.path.join(p, name)` for a relative `name`. */
  function Join(p: Path, name: string): (s: string)
    ensures |s| > 0 && s[0] == '/'
  {
    if p == [] then "/" + name else PathString(p) + "/" + name
  }

  /**
   * The parts of a path string applied to `base` the way `normpath` does:
   * empty parts and `.` vanish, `..` drops the last component and stays put
   * at the root, any other part is appended.
   */
  function Walk(base: Path, parts: seq<string>): (r: Path)
    requires forall i :: 0 <= i < |parts| ==> '/' !in parts[i]
    ensures Clean(base) ==> Clean(r)
    decreases |parts|
  {
    if parts == [] then base
    else
      var part := parts[0];
      var next :=
        if part == "" || part == "." then base
        else if part == ".." then (if base == [] then [] else base[..|base| - 1])
        else base + [part];
      Walk(next, parts[1..])
  }

  /** `os.path.normpath(s)` of an absolute path string, as components. */
  function Normpath(s: string): (p: Path)
    ensures Clean(p)
  {
    Walk([], Split(s, '/'))
  }

  /** Clean components are appended unchanged. */
  lemma {:induction false} WalkClean(base: Path, p: Path)
    requires Clean(p)
    ensures Walk(base, p) == base + p
    decreases |p|
  {
    if p != [] {
      assert Clean(p[1..]) by {
        forall i | 0 <= i < |p[1..]| ensures p[1..][i] == p[i + 1] { }
      }
      WalkClean(base + [p[0]], p[1..]);
      assert base + [p[0]] + p[1..] == base + p;
    }
  }

  /** No component holds a `/`. */
  predicate NoSlash(p: Path) {
    forall i :: 0 <= i < |p| ==> '/' !in p[i]
  }

  /** Splitting the tail of a path string at `/` gives back its components. */
  lemma {:induction false} SplitComponents(p: Path)
    requires p != [] && NoSlash(p)
    ensures Split(p[0] + Components(p[1..]), '/') == p
    decreases |p|
  {
    var rest := p[1..];
    if rest == [] {
      assert p[0] + Components(rest) == p[0];
      SplitNoSep(p[0], '/');
    } else {
      NoSlashTail(p);
      SplitComponents(rest);
      SplitNext(p[0], rest);
      assert [p[0]] + rest == p;
    }
  }

  lemma NoSlashTail(p: Path)
    requires p != [] && NoSlash(p)
    ensures NoSlash(p[1..]) && '/' !in p[0]
  {
    forall i | 0 <= i < |p[1..]| ensures p[1..][i] == p[i + 1] { }
  }

  lemma SplitNext(a: string, rest: Path)
    requires '/' !in a && rest != []
    ensures Split(a + Components(rest), '/') == [a] + Split(rest[0] + Components(rest[1..]), '/')
  {
    var b := rest[0] + Components(rest[1..]);
    assert Components(rest) == "/" + b;
    assert a + Components(rest) == a + ['/'] + b;
    SplitCons(a, '/', b);
  }

  /** Splitting the string of a non-root path gives an empty part and then its components. */
  lemma SplitPathString(p: Path)
    requires p != [] && NoSlash(p)
    ensures Split(Components(p), '/') == [""] + p
  {
    SplitComponents(p);
    assert Components(p) == "" + ['/'] + (p[0] + Components(p[1..]));
    SplitCons("", '/', p[0] + Components(p[1..]));
  }

  /** The string of a concatenation is the concatenation of the strings. */
  lemma {:induction false} ComponentsAppend(a: Path, b: Path)
    ensures Components(a + b) == Components(a) + Components(b)
    decreases |a|
  {
    if a != [] {
      ComponentsAppend(a[1..], b);
      assert (a + b)[1..] == a[1..] + b;
    } else {
      assert a + b == b;
    }
  }

  /** `os.path.join(p, name)` is the string of the child path. */
  lemma JoinChild(p: Path, name: string)
    ensures Join(p, name) == Components(p + [name])
  {
    ComponentsAppend(p, [name]);
    assert Components([name]) == "/" + name + "";
  }

  /** Walking a concatenation is walking one part after the other. */
  lemma {:induction false} WalkConcat(base: Path, a: seq<string>, b: seq<string>)
    requires NoSlash(a) && NoSlash(b)
    ensures NoSlash(a + b) && Walk(base, a + b) == Walk(Walk(base, a), b)
    decreases |a|
  {
    assert NoSlash(a + b) by {
      forall i | 0 <= i < |a + b| ensures '/' !in (a + b)[i] {
        if i < |a| { assert (a + b)[i] == a[i]; } else { assert (a + b)[i] == b[i - |a|]; }
      }
    }
    if a != [] {
      NoSlashTail(a);
      assert (a + b)[1..] == a[1..] + b;
      var part := a[0];
      var next :=
        if part == "" || part == "." then base
        else if part == ".." then (if base == [] then [] else base[..|base| - 1])
        else base + [part];
      WalkConcat(next, a[1..], b);
    } else {
      assert a + b == b;
    }
  }

  /** `normpath` of the string of a clean path is that path. */
  lemma NormpathOfString(p: Path)
    requires Clean(p)
    ensures Normpath(PathString(p)) == p
  {
    if p == [] {
      assert "/" == "" + ['/'] + "";
      SplitCons("", '/', "");
      assert Split("", '/') == [""];
      assert Split("/", '/') == ["", ""];
    } else {
      SplitPathString(p);
      WalkClean([], p);
    }
  }

  // ---------------------------------------------------------------------------
  // Prefixes and os.path.commonpath
  // ---------------------------------------------------------------------------

  predicate IsPrefix(a: Path, b: Path) {
    |a| <= |b| && b[..|a|] == a
  }

  /** `os.path.commonpath([a, b])` of two absolute paths: the longest common prefix. */
  function CommonPath(a: Path, b: Path): (r: Path)
    ensures IsPrefix(r, a) && IsPrefix(r, b)
    ensures |r| < |a| && |r| < |b| ==> a[|r|] != b[|r|]
  {
    if a == [] || b == [] || a[0] != b[0] then []
    else
      var rest := CommonPath(a[1..], b[1..]);
      assert a[..|rest| + 1] == [a[0]] + a[1..][..|rest|];
      assert b[..|rest| + 1] == [b[0]] + b[1..][..|rest|];
      [a[0]] + rest
  }

  /** The common path of `root` and `p` is `root` exactly when `p` lies under `root`. */
  lemma CommonPathIsRoot(root: Path, p: Path)
    ensures CommonPath(root, p) == root <==> IsPrefix(root, p)
  {
  }

  /** `os.path.dirname` of a path: its parent, the root for the root itself. */
  function Dirname(p: Path): (r: Path)
    ensures IsPrefix(r, p) && (p != [] ==> |r| == |p| - 1)
  {
    if p == [] then [] else p[..|p| - 1]
  }

  /** The base name of the string of a path is its last component. */
  lemma BasenameOfString(p: Path)
    requires Clean(p) && p != []
    ensures Basename(PathString(p)) == p[|p| - 1]
  {
    ComponentsLast(p);
    BasenameJoin(Components(p[..|p| - 1]), p[|p| - 1]);
  }

  lemma {:induction false} ComponentsLast(p: Path)
    requires p != []
    ensures Components(p) == Components(p[..|p| - 1]) + "/" + p[|p| - 1]
    decreases |p|
  {
    if |p| > 1 {
      ComponentsLast(p[1..]);
      assert p[1..][..|p[1..]| - 1] == p[..|p| - 1][1..];
    } else {
      assert Components(p[1..]) == "";
    }
  }

  // ---------------------------------------------------------------------------
  // The file system and the player's checks
  // ---------------------------------------------------------------------------

  datatype Kind = Directory | RegularFile

  /** What exists, by path; anything else does not exist. */
  type FileSystem = map<Path, Kind>

  /** `_check_dir`: the path exists and its common path with the root is the root. */
  predicate CheckDir(fs: FileSystem, root: Path, p: Path) {
    p in fs && CommonPath(root, p) == root
  }

  /** `_check_file`: the path exists and its parent passes `_check_dir`. */
  predicate CheckFile(fs: FileSystem, root: Path, p: Path) {
    p in fs && CheckDir(fs, root, Dirname(p))
  }

  /** A directory passes exactly when it exists under the root (the root included). */
  lemma CheckDirUnderRoot(fs: FileSystem, root: Path, p: Path)
    ensures CheckDir(fs, root, p) <==> p in fs && IsPrefix(root, p)
  {
    CommonPathIsRoot(root, p);
  }

  /**
   * A file passes exactly when it exists and its parent exists under the
   * root; any path other than `/` that passes lies strictly below the root.
   */
  lemma CheckFileUnderRoot(fs: FileSystem, root: Path, p: Path)
    ensures CheckFile(fs, root, p) <==> p in fs && Dirname(p) in fs && IsPrefix(root, Dirname(p))
    ensures CheckFile(fs, root, p) && p != [] ==> |root| < |p| && IsPrefix(root, p)
  {
    CommonPathIsRoot(root, Dirname(p));
    if CheckFile(fs, root, p) && p != [] {
      var d := Dirname(p);
      assert p[..|root|] == d[..|root|];
    }
  }

  // ---------------------------------------------------------------------------
  // Durations
  // ---------------------------------------------------------------------------

  /** `divmod(seconds, 60)` and then `divmod(minutes, 60)`. */
  function Clock(seconds: nat): (hms: (nat, nat, nat))
    ensures hms.0 * 3600 + hms.1 * 60 + hms.2 == seconds
    ensures hms.1 < 60 && hms.2 < 60
  {
    var m := seconds / 60;
    var s := seconds % 60;
    (m / 60, m % 60, s)
  }

  /** `_pp_time`: `mm:ss` below one hour, `hh:mm:ss` from then on, two digits or more per field. */
  function PpTime(seconds: nat): (r: string)
    ensures seconds < 3600 ==> |r| == 5
    ensures seconds >= 3600 ==> |r| >= 8
  {
    var hms := Clock(seconds);
    if hms.0 > 0 then Pad2(hms.0) + ":" + Pad2(hms.1) + ":" + Pad2(hms.2)
    else Pad2(hms.1) + ":" + Pad2(hms.2)
  }

  /** Reads `mm:ss` or `hh:mm:ss` back into seconds. */
  function ParseTime(t: string): (r: Option<nat>)
    ensures r.Some? ==> ':' in t
  {
    ParseFields(Split(t, ':'))
  }

  /** Two fields are minutes and seconds, three are hours, minutes and seconds. */
  function ParseFields(f: seq<string>): (r: Option<nat>)
    ensures r.Some? ==> |f| in {2, 3}
  {
    if |f| == 2 then
      var m, s := ParseNat(f[0]), ParseNat(f[1]);
      if m.Some? && s.Some? then Some(m.value * 60 + s.value) else None
    else if |f| == 3 then
      var h, m, s := ParseNat(f[0]), ParseNat(f[1]), ParseNat(f[2]);
      if h.Some? && m.Some? && s.Some? then Some(h.value * 3600 + m.value * 60 + s.value) else None
    else None
  }

  /** No digit string holds a colon. */
  lemma DigitsNoColon(s: string)
    requires IsDigits(s)
    ensures ':' !in s
  {
  }

  /** `mm:ss` splits at the colon into its two fields. */
  lemma SplitTwo(m: nat, s: nat)
    ensures Split(Pad2(m) + ":" + Pad2(s), ':') == [Pad2(m), Pad2(s)]
  {
    DigitsNoColon(Pad2(m));
    DigitsNoColon(Pad2(s));
    SplitFields2(Pad2(m), Pad2(s));
  }

  /** `hh:mm:ss` splits at the colons into its three fields. */
  lemma SplitThree(h: nat, m: nat, s: nat)
    ensures Split(Pad2(h) + ":" + Pad2(m) + ":" + Pad2(s), ':') == [Pad2(h), Pad2(m), Pad2(s)]
  {
    DigitsNoColon(Pad2(h));
    DigitsNoColon(Pad2(m));
    DigitsNoColon(Pad2(s));
    SplitFields3(Pad2(h), Pad2(m), Pad2(s));
  }

  lemma SplitFields2(x: string, y: string)
    requires ':' !in x && ':' !in y
    ensures Split(x + ":" + y, ':') == [x, y]
  {
    SplitNoSep(y, ':');
    SplitColon(x, y);
  }

  lemma SplitFields3(x: string, y: string, z: string)
    requires ':' !in x && ':' !in y && ':' !in z
    ensures Split(x + ":" + y + ":" + z, ':') == [x, y, z]
  {
    var tail := y + ":" + z;
    assert x + ":" + y + ":" + z == x + ":" + tail;
    SplitFields2(y, z);
    SplitColon(x, tail);
  }

  lemma SplitColon(a: string, b: string)
    requires ':' !in a
    ensures Split(a + ":" + b, ':') == [a] + Split(b, ':')
  {
    assert a + ":" + b == a + [':'] + b;
    SplitCons(a, ':', b);
  }

  /** The rendered duration reads back as the same number of seconds. */
  lemma PpTimeRoundTrip(seconds: nat)
    ensures ParseTime(PpTime(seconds)) == Some(seconds)
  {
    var hms := Clock(seconds);
    if hms.0 > 0 {
      ParseThree(hms.0, hms.1, hms.2, seconds);
    } else {
      ParseTwo(hms.1, hms.2, seconds);
    }
  }

  lemma ParseTwo(m: nat, s: nat, seconds: nat)
    requires m * 60 + s == seconds
    ensures ParseTime(Pad2(m) + ":" + Pad2(s)) == Some(seconds)
  {
    SplitTwo(m, s);
    FieldsTwo([Pad2(m), Pad2(s)], m, s, seconds);
  }

  lemma ParseThree(h: nat, m: nat, s: nat, seconds: nat)
    requires h * 3600 + m * 60 + s == seconds
    ensures ParseTime(Pad2(h) + ":" + Pad2(m) + ":" + Pad2(s)) == Some(seconds)
  {
    SplitThree(h, m, s);
    FieldsThree([Pad2(h), Pad2(m), Pad2(s)], h, m, s, seconds);
  }

  lemma FieldsTwo(f: seq<string>, m: nat, s: nat, seconds: nat)
    requires |f| == 2 && ParseNat(f[0]) == Some(m) && ParseNat(f[1]) == Some(s)
    requires m * 60 + s == seconds
    ensures ParseFields(f) == Some(seconds)
  {
  }

  lemma FieldsThree(f: seq<string>, h: nat, m: nat, s: nat, seconds: nat)
    requires |f| == 3 && ParseNat(f[0]) == Some(h) && ParseNat(f[1]) == Some(m) && ParseNat(f[2]) == Some(s)
    requires h * 3600 + m * 60 + s == seconds
    ensures ParseFields(f) == Some(seconds)
  {
  }

  /** A string without the separator splits into itself. */
  lemma SplitNoSep(s: string, sep: char)
    requires sep !in s
    ensures Split(s, sep) == [s]
  {
  }
}
